/** The interview session controller: a state machine over the current
    question index, the pre-sized answer list, the in-flight submission and
    the feedback on display, driven by the events the session screen reacts
    to (typing, dictation, submit, the end of scoring, continue). */
module Session {
  import opened Optional
  import opened JsText
  import opened QuestionBank
  import opened Scoring

  /** The role used when the session screen is opened without one. */
  const FallbackRole: string := "Software Engineer"

  /** Everything the session screen keeps between events. */
  datatype SessionState = SessionState(
    questions: seq<string>,
    /** The question on screen, 0-based. */
    index: nat,
    /** One answer per question, initially all empty. */
    answers: seq<string>,
    /** Whether the browser offers speech recognition at all. */
    dictationAvailable: bool,
    /** The recording flag the screen shows ("Stop Recording", "Listening..."). */
    recording: bool,
    /** Whether the speech recognizer is actually running and delivering
        transcripts. */
    listening: bool,
    /** Some while an answer is being scored: the answer text the scheduled
        scoring step captured when submit was pressed. */
    inFlight: Option<string>,
    /** The assessment on display, None while the question is being answered. */
    feedback: Option<Assessment>)
  {
    predicate Submitting() {
      inFlight.Some?
    }
  }

  /** Why an event was refused; a refused event changes nothing. */
  datatype SessionError =
    | EmptyAnswer           // submit with an answer that trims to nothing
    | AlreadySubmitting     // submit while a submission is being scored
    | NotAnswering          // typing or submitting while feedback is on display
    | NoFeedback            // continue while no feedback is on display
    | NothingInFlight       // scoring finished although nothing was submitted
    | NotListening          // a recognizer event while the recognizer is off
    | DictationUnavailable  // the dictation control is not on screen
    | SessionOver           // an event after the session has completed

  /** What a completed session hands to the results screen. */
  datatype Handoff = Handoff(
    questions: seq<string>,
    answers: seq<string>,
    feedbacks: seq<Assessment>)

  /** The outcome of continue: the next question, or the finished session. */
  datatype Step = Next(state: SessionState) | Finished(handoff: Handoff)

  /** The invariant every reachable state keeps: the answer list stays sized
      to the question set, the index stays on a question, no feedback is shown
      while scoring is in flight, and the recording flag tells the truth about
      the recognizer. */
  predicate Valid(s: SessionState) {
    && |s.questions| == QuestionCount
    && |s.answers| == |s.questions|
    && s.index < |s.questions|
    && (s.Submitting() ==> s.feedback.None?)
    && s.recording == s.listening
    && (s.recording ==> s.dictationAvailable)
  }

  /** `t` differs from `s` only in the answer to the current question, which
      is now `text`. */
  predicate OnlyCurrentAnswerIs(s: SessionState, t: SessionState, text: string)
    requires s.index < |s.answers|
  {
    && |t.answers| == |s.answers|
    && t.answers[s.index] == text
    && (forall k :: 0 <= k < |s.answers| && k != s.index ==> t.answers[k] == s.answers[k])
    && t.(answers := s.answers) == s
  }

  /** Opens a session: the first question of the role's set, every answer
      empty, nothing recording, submitted or shown. */
  function Start(role: Option<string>, dictationAvailable: bool): (s: SessionState)
    ensures Valid(s)
    ensures s.index == 0 && !s.Submitting() && s.feedback.None? && !s.recording
    ensures s.questions == QuestionsFor(role.GetOr(FallbackRole))
    ensures forall k :: 0 <= k < |s.answers| ==> s.answers[k] == ""
  {
    SessionState(
      QuestionsFor(role.GetOr(FallbackRole)), 0, seq(QuestionCount, _ => ""),
      dictationAvailable, false, false, None, None)
  }

  /** The typed-answer box changes: its whole content replaces the current
      answer. The box is on screen (and editable, even during scoring) only
      while no feedback is shown. */
  function Edit(s: SessionState, text: string): (r: Result<SessionState, SessionError>)
    requires Valid(s)
    ensures r.Success? <==> s.feedback.None?
    ensures r.Failure? ==> r.error == NotAnswering
    ensures r.Success? ==> Valid(r.value) && OnlyCurrentAnswerIs(s, r.value, text)
  {
    if s.feedback.Some? then Failure(NotAnswering)
    else Success(s.(answers := s.answers[s.index := text]))
  }

  /** The recognizer delivers a result: the transcript so far replaces the
      current answer, it is not appended to it. */
  function Transcript(s: SessionState, transcript: string): (r: Result<SessionState, SessionError>)
    requires Valid(s)
    ensures r.Success? <==> s.listening
    ensures r.Failure? ==> r.error == NotListening
    ensures r.Success? ==> Valid(r.value) && OnlyCurrentAnswerIs(s, r.value, transcript)
  {
    if !s.listening then Failure(NotListening)
    else Success(s.(answers := s.answers[s.index := transcript]))
  }

  /** The dictation button: stopping freezes the answer as it is; starting
      clears the current answer and starts the recognizer. The button is shown
      only when the browser supports dictation and no feedback is on display. */
  function ToggleDictation(s: SessionState): (r: Result<SessionState, SessionError>)
    requires Valid(s)
    ensures r.Success? <==> s.dictationAvailable && s.feedback.None?
    ensures r.Failure? ==> r.error == DictationUnavailable
    ensures r.Success? ==> Valid(r.value) && r.value.recording == !s.recording
    ensures r.Success? && s.recording ==>
      r.value.(recording := s.recording, listening := s.listening) == s
    ensures r.Success? && !s.recording ==>
      OnlyCurrentAnswerIs(s, r.value.(recording := s.recording, listening := s.listening), "")
  {
    if !s.dictationAvailable || s.feedback.Some? then Failure(DictationUnavailable)
    else if s.recording then Success(s.(recording := false, listening := false))
    else Success(s.(answers := s.answers[s.index := ""], recording := true, listening := true))
  }

  /** The recognizer reports an error: dictation stops, the answer keeps what
      was captured so far and typing stays available. */
  function DictationError(s: SessionState): (r: Result<SessionState, SessionError>)
    requires Valid(s)
    ensures r.Success? <==> s.listening
    ensures r.Failure? ==> r.error == NotListening
    ensures r.Success? ==> Valid(r.value) && !r.value.recording && !r.value.listening
    ensures r.Success? ==> r.value.(recording := s.recording, listening := s.listening) == s
  {
    if !s.listening then Failure(NotListening)
    else Success(s.(recording := false, listening := false))
  }

  /** The submit button. It is on screen only while no feedback is shown and
      is disabled while the current answer trims to nothing or a submission is
      in flight. Pressing it stops dictation and schedules scoring of the
      answer as it stands now. */
  function Submit(s: SessionState): (r: Result<SessionState, SessionError>)
    requires Valid(s)
    ensures r.Success? <==> s.feedback.None? && !s.Submitting() && !IsBlank(s.answers[s.index])
    ensures r.Failure? && s.feedback.Some? ==> r.error == NotAnswering
    ensures r.Failure? && s.feedback.None? && s.Submitting() ==> r.error == AlreadySubmitting
    ensures r.Failure? && s.feedback.None? && !s.Submitting() ==> r.error == EmptyAnswer
    ensures r.Success? ==> Valid(r.value) && r.value.inFlight == Some(s.answers[s.index])
    ensures r.Success? ==> !r.value.recording && !r.value.listening
    ensures r.Success? ==>
      r.value.(inFlight := s.inFlight, recording := s.recording, listening := s.listening) == s
  {
    if s.feedback.Some? then Failure(NotAnswering)
    else if s.Submitting() then Failure(AlreadySubmitting)
    else if IsBlank(s.answers[s.index]) then Failure(EmptyAnswer)
    else Success(s.(recording := false, listening := false, inFlight := Some(s.answers[s.index])))
  }

  /** The scheduled scoring step runs: the captured answer is assessed, the
      assessment goes on display and the submission is over. */
  function CompleteSubmit(s: SessionState): (r: Result<SessionState, SessionError>)
    requires Valid(s)
    ensures r.Success? <==> s.Submitting()
    ensures r.Failure? ==> r.error == NothingInFlight
    ensures r.Success? ==> Valid(r.value) && !r.value.Submitting()
    ensures r.Success? ==> r.value.feedback == Some(Assess(s.inFlight.value))
    ensures r.Success? ==> r.value.(inFlight := s.inFlight, feedback := s.feedback) == s
  {
    if !s.Submitting() then Failure(NothingInFlight)
    else Success(s.(inFlight := None, feedback := Some(Assess(s.inFlight.value))))
  }

  /** Continue with the session after the recognizer of the current question
      was stopped, given what becomes of the recording flag. */
  function Advance(s: SessionState, recording: bool): (step: Step)
    requires Valid(s) && s.feedback.Some?
  {
    if s.index < |s.questions| - 1 then
      Next(s.(index := s.index + 1, feedback := None, recording := recording, listening := false))
    else
      Finished(Handoff(s.questions, s.answers,
        seq(|s.answers|, k requires 0 <= k < |s.answers| => Assess(s.answers[k]))))
  }

  /** The continue button, shown only while feedback is on display: it clears
      the feedback and either moves to the next question, stopping any
      dictation, or, after the last question, completes the session handing
      over every answer freshly re-assessed. */
  function Continue(s: SessionState): (r: Result<Step, SessionError>)
    requires Valid(s)
    ensures r.Success? <==> s.feedback.Some?
    ensures r.Failure? ==> r.error == NoFeedback
    ensures r.Success? ==> (r.value.Next? <==> s.index < |s.questions| - 1)
    ensures r.Success? && r.value.Next? ==>
      && Valid(r.value.state)
      && r.value.state.index == s.index + 1
      && r.value.state.feedback.None?
      && !r.value.state.recording
      && r.value.state.(index := s.index, feedback := s.feedback,
                        recording := s.recording, listening := s.listening) == s
    ensures r.Success? && r.value.Finished? ==>
      && s.index == |s.questions| - 1
      && r.value.handoff.questions == s.questions
      && r.value.handoff.answers == s.answers
      && |r.value.handoff.feedbacks| == |s.answers|
      && forall k :: 0 <= k < |s.answers| ==> r.value.handoff.feedbacks[k] == Assess(s.answers[k])
  {
    if s.feedback.None? then Failure(NoFeedback)
    else Success(Advance(s, false))
  }

  /** Continue as the session screen implements it: moving to the next
      question re-creates the recognizer and stops the old one, but leaves the
      recording flag as it was. */
  function ContinueAsWritten(s: SessionState): (r: Result<Step, SessionError>)
    requires Valid(s)
    ensures r.Success? <==> s.feedback.Some?
    ensures r.Success? && r.value.Next? ==>
      r.value.state.recording == s.recording && !r.value.state.listening
    ensures r.Failure? || r.value.Finished? ==> r == Continue(s)
    ensures r.Success? && r.value.Next? ==>
      && Continue(s).Success? && Continue(s).value.Next?
      && r.value.state == Continue(s).value.state.(recording := s.recording)
    ensures !s.recording ==> r == Continue(s)
  {
    if s.feedback.None? then Failure(NoFeedback)
    else Success(Advance(s, s.recording))
  }
}

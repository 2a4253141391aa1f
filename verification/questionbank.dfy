/** The static question bank: five questions for each of four roles, plus a
    `default` set used for every other role. */
module QuestionBank {

  /** Every question set has this many questions; the session pre-sizes its
      answer list to it. */
  const QuestionCount: nat := 5

  /** The key of the fallback set. */
  const DefaultKey: string := "default"

  const SoftwareEngineerQuestions: seq<string> := [
    "Tell me about a challenging project you've worked on recently and how you overcame obstacles.",
    "How do you approach debugging a complex issue in your code?",
    "Explain the concept of object-oriented programming and its core principles.",
    "What's your experience with version control systems and CI/CD pipelines?",
    "How do you stay updated with new technologies and programming languages?"
  ]

  const FrontendDeveloperQuestions: seq<string> := [
    "Explain the difference between React's state and props.",
    "How do you optimize the performance of a web application?",
    "What are the key considerations for creating accessible web applications?",
    "Tell me about a responsive design challenge you faced and how you solved it.",
    "How do you handle state management in large-scale applications?"
  ]

  const BackendDeveloperQuestions: seq<string> := [
    "Explain RESTful API design principles.",
    "How do you approach database optimization for a high-traffic application?",
    "What strategies do you use for error handling in a backend service?",
    "Tell me about your experience with microservices architecture.",
    "How do you ensure the security of API endpoints you develop?"
  ]

  const DataScientistQuestions: seq<string> := [
    "Explain the difference between supervised and unsupervised learning.",
    "How do you handle missing data in a dataset?",
    "Tell me about a data analysis project where you extracted valuable insights.",
    "What techniques do you use for feature selection?",
    "How do you evaluate the performance of a machine learning model?"
  ]

  const DefaultQuestions: seq<string> := [
    "Tell me about your background and experience in this field.",
    "What are your technical strengths and areas you're looking to develop?",
    "Describe a challenging problem you solved in a previous role.",
    "How do you approach learning new technologies or methodologies?",
    "Where do you see yourself professionally in the next few years?"
  ]

  /** The bank, keyed by role name; `default` is itself a key. */
  const Bank: map<string, seq<string>> := map[
    "Software Engineer" := SoftwareEngineerQuestions,
    "Frontend Developer" := FrontendDeveloperQuestions,
    "Backend Developer" := BackendDeveloperQuestions,
    "Data Scientist" := DataScientistQuestions,
    DefaultKey := DefaultQuestions
  ]

  /** The roles the setup form offers. Only four of them have their own set. */
  const OfferedRoles: seq<string> := [
    "Software Engineer",
    "Frontend Developer",
    "Backend Developer",
    "Full Stack Developer",
    "DevOps Engineer",
    "Data Scientist",
    "Machine Learning Engineer",
    "Product Manager",
    "UX/UI Designer",
    "QA Engineer"
  ]

  /** The questions asked for `role`: its own set when the bank has one, the
      default set otherwise. The lookup never fails. */
  function QuestionsFor(role: string): (qs: seq<string>)
    ensures |qs| == QuestionCount
    ensures qs in Bank.Values
    ensures role in Bank ==> qs == Bank[role]
    ensures role !in Bank ==> qs == DefaultQuestions
  {
    if role in Bank then Bank[role] else Bank[DefaultKey]
  }

  /** Every set in the bank has exactly `QuestionCount` questions, none of them
      empty. */
  lemma EverySetHasFiveQuestions(role: string)
    requires role in Bank
    ensures |Bank[role]| == QuestionCount
    ensures forall k :: 0 <= k < |Bank[role]| ==> Bank[role][k] != ""
  {
  }

  /** Six of the ten roles the setup form offers fall back to the default set,
      among them "Full Stack Developer"; the other four get their own set. */
  lemma OfferedRolesResolve()
    ensures QuestionsFor(OfferedRoles[3]) == DefaultQuestions
    ensures forall k :: 0 <= k < |OfferedRoles| ==>
      (QuestionsFor(OfferedRoles[k]) == DefaultQuestions <==> k !in {0, 1, 2, 5})
  {
  }
}

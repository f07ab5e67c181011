/** The exam ally's system prompt and the two messages that open every exam
    conversation (pages/03_exam_ally.py). The prompt is fixed text with the
    extracted course text and the chosen exam question style spliced in; the
    fixed text is kept in a Template so that what is proved about the layout
    holds for its every part. */
module ExamPrompt {
  import opened Chat

  /** The fixed parts of the prompt, in the order they appear. */
  datatype Template = Template(
    preamble: string,         // the tutor role and goal
    courseHeading: string,    // heading before the course text
    styleHeading: string,     // heading before the exam question style
    sectionBreak: string,     // blank line closing each spliced-in value
    criteriaHeading: string,  // "Generate exam questions using the following criteria"
    shortAnswerRule: string,  // 10 questions for short-answer requests
    otherTypesRule: string,   // 4-5 questions otherwise
    policyRest: string)       // pacing, feedback, scoring and tone instructions
  {
    function Head(): string { preamble + courseHeading }
    function Mid(): string { sectionBreak + styleHeading }
    /** Everything after the exam question style. */
    function Policy(): string { criteriaHeading + shortAnswerRule + otherTypesRule + policyRest }
    function Tail(): string { sectionBreak + Policy() }
  }

  /** SYSTEM_PROMPT's fixed text. */
  const ExamAllyTemplate: Template := Template(
    "You will be acting as an AI tutor to help students prepare for an information " +
    "systems and analytics exam. You will be provided with a course document that may " +
    "be a textbook, lecture notes, or study guide. Your goal is to generate " +
    "practice exam questions for the student based: (a) their uploaded course document, " +
    "and (b) their chosen exam question style. \n\n",
    "#Course Document:\n",
    "#Exam Question Style:\n",
    "\n\n",
    "Generate exam questions using the following criteria:\n",
    "- If the student requested short-answer questions, generate 10 questions that " +
    "cover a range of topics from the documents.\n",
    "- For all other question types, generate 4-5 questions.\n",
    "- Show one question at a time and wait for the student to provide an answer " +
    "before moving on to the next question.\n\n" +
    "Once you receive the student's answer, acknowledge it and present the next " +
    "question. Continue this process until the student has answered all of the " +
    "questions you generated.\n\n" +
    "After the student has completed all the questions, provide them with the " +
    "following:\n" +
    "1. In a <feedback> block, write a detailed evaluation of their performance on " +
    "each question. Structure your feedback as follows:\n" +
    "- Begin with an overall summary paragraph highlighting areas of strength and " +
    "areas for improvement.\n" +
    "- Then, go through each of their answers, first restating the question, then " +
    "assessing the correctness and completeness of their answer. Provide guidance on " +
    "how they could improve their answer if applicable.\n" +
    "- End with some motivating words of encouragement.\n\n" +
    "2. After the <feedback> block, provide their overall exam score in a <score> " +
    "block. Calculate the score as follows:\n" +
    "- Divide 100 points evenly across all questions (e.g. if there were 10 " +
    "questions, each one is worth 10 points).\n" +
    "- Award points for each question based on the correctness and completeness of " +
    "the student's answer.\n" +
    "- Sum up the points and provide a final score out of 100.\n\n" +
    "Some key things to remember:\n" +
    "- Be patient and encouraging in your tone. The goal is to help the student " +
    "learn and feel more prepared for their exam.\n" +
    "- Provide detailed and constructive feedback, pointing out both strengths and " +
    "weaknesses in their answers.\n" +
    "- Generate questions that test a range of concepts and skills from the course " +
    "documents.\n" +
    "- Do not show the student the questions in advance; they should be seeing them " +
    "for the first time when you present them in a one-question-at-a-time format.")

  /** The fixed user message that follows the system prompt. */
  const Greeting: string := "Hello, please help me prepare for my exam."

  /** The f-string: the template's fixed parts around the two values. */
  function Render(t: Template, courseText: string, examType: string): string
  {
    t.Head() + courseText + t.Mid() + examType + t.Tail()
  }

  function SystemPrompt(courseText: string, examType: string): string
  {
    Render(ExamAllyTemplate, courseText, examType)
  }

  /** The two messages `messages` starts with. */
  function Opening(courseText: string, examType: string): seq<Message>
  {
    [Message(System, SystemPrompt(courseText, examType)), Message(User, Greeting)]
  }

  /** `sub` appears in `s` starting at index `at`. */
  predicate OccursAt(sub: string, s: string, at: int)
  {
    0 <= at && at + |sub| <= |s| && s[at..at + |sub|] == sub
  }

  /** Where the exam question style starts in a rendered prompt. */
  function StyleOffset(t: Template, courseText: string): nat
  {
    |t.Head()| + |courseText| + |t.Mid()|
  }

  /** A piece of a piece of a text is a piece of the text. */
  lemma {:induction false} OccursWithin(sub: string, part: string, s: string, i: int, j: int)
    requires OccursAt(sub, part, i) && OccursAt(part, s, j)
    ensures OccursAt(sub, s, j + i)
  {
    forall k | 0 <= k < |sub|
      ensures s[j + i + k] == sub[k]
    {
      assert part[i + k] == sub[k];
      assert s[j + (i + k)] == part[i + k];
    }
  }

  /** The prompt opens with the fixed head, then holds the course text verbatim,
      then, after it, the exam question style verbatim, and closes with the fixed
      tail. */
  lemma {:induction false} PromptLayout(t: Template, courseText: string, examType: string)
    ensures var p := Render(t, courseText, examType);
      && |p| == |t.Head()| + |courseText| + |t.Mid()| + |examType| + |t.Tail()|
      && OccursAt(t.Head(), p, 0)
      && OccursAt(courseText, p, |t.Head()|)
      && |t.Head()| + |courseText| <= StyleOffset(t, courseText)
      && OccursAt(examType, p, StyleOffset(t, courseText))
      && OccursAt(t.Tail(), p, |p| - |t.Tail()|)
  {
    var p := Render(t, courseText, examType);
    assert p == t.Head() + (courseText + (t.Mid() + (examType + t.Tail())));
    assert p[..|t.Head()|] == t.Head();
    assert p == (t.Head() + courseText + t.Mid()) + (examType + t.Tail());
    assert p[|t.Head()|..|t.Head()| + |courseText|] == courseText;
  }

  /** In a + b + c + rest, b and c sit right after a. */
  lemma {:induction false} SegmentsAt(a: string, b: string, c: string, rest: string)
    ensures OccursAt(b, a + b + c + rest, |a|)
    ensures OccursAt(c, a + b + c + rest, |a| + |b|)
  {
    var s := a + b + c + rest;
    assert s == a + (b + (c + rest));
    assert s == (a + b) + (c + rest);
  }

  /** A text that ends with the template's tail ends with its policy. */
  lemma {:induction false} PolicyEndsText(t: Template, p: string)
    requires OccursAt(t.Tail(), p, |p| - |t.Tail()|)
    ensures OccursAt(t.Policy(), p, |p| - |t.Policy()|)
  {
    var policy := t.Policy();
    assert OccursAt(policy, t.sectionBreak + policy, |t.sectionBreak|) by {
      assert (t.sectionBreak + policy)[|t.sectionBreak|..] == policy;
    }
    OccursWithin(policy, t.Tail(), p, |t.sectionBreak|, |p| - |t.Tail()|);
  }

  /** The code has no branch on the exam question style: whatever style is chosen,
      the prompt ends with the same policy text, which carries both question-count
      rules, so the choice between 10 and 4-5 questions is left to the model. */
  lemma {:induction false} PolicyIgnoresExamType(t: Template, courseText: string, examType: string)
    ensures var p := Render(t, courseText, examType);
      var start := |p| - |t.Policy()|;
      && OccursAt(t.Policy(), p, start)
      && OccursAt(t.shortAnswerRule, p, start + |t.criteriaHeading|)
      && OccursAt(t.otherTypesRule, p, start + |t.criteriaHeading| + |t.shortAnswerRule|)
  {
    var p := Render(t, courseText, examType);
    var start := |p| - |t.Policy()|;
    PromptLayout(t, courseText, examType);
    PolicyEndsText(t, p);
    SegmentsAt(t.criteriaHeading, t.shortAnswerRule, t.otherTypesRule, t.policyRest);
    OccursWithin(t.shortAnswerRule, t.Policy(), p, |t.criteriaHeading|, start);
    OccursWithin(t.otherTypesRule, t.Policy(), p, |t.criteriaHeading| + |t.shortAnswerRule|, start);
  }

  /** Given the length of the course text, a prompt determines both the course
      text and the exam question style that were spliced into it. */
  lemma {:induction false} PromptDeterminesContext(t: Template, c1: string, e1: string, c2: string, e2: string)
    requires |c1| == |c2| && Render(t, c1, e1) == Render(t, c2, e2)
    ensures c1 == c2 && e1 == e2
  {
    PromptLayout(t, c1, e1);
    PromptLayout(t, c2, e2);
  }
}

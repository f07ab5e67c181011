/** The per-session state machine of the exam ally page (pages/03_exam_ally.py).
    `st.session_state` is a Session object; each of its keys the page reads may be
    missing, so each field is an Option. Every re-run of the page script reacts to
    one event, and each event is a method here. */
module ExamAllySession {
  import opened Wrappers
  import opened Chat
  import opened PdfPages
  import opened ExamPrompt
  import opened TokenUsage

  /** THIS_PAGE */
  const ExamAllyPage: string := "exam_ally"

  /** What a successful submit stores in `st.session_state['submission']`. */
  datatype Submission = Submission(modelChoice: string, courseText: string, examType: string)

  /** What the completion call returns: the reply and the tokens it used. */
  datatype Completion = Completion(text: string, inputTokens: nat, outputTokens: nat)

  /** Python truthiness of an optional string widget value. */
  predicate Filled(v: Option<string>)
  {
    v.Some? && v.value != ""
  }

  /** The system message and greeting for `s`, then strictly alternating user and
      assistant messages. */
  predicate IsTranscript(msgs: seq<Message>, s: Submission)
  {
    |msgs| >= 2 && |msgs| % 2 == 0 && msgs[..2] == Opening(s.courseText, s.examType) && Alternates(msgs, 2)
  }

  /** The two opening messages on their own are a transcript. */
  lemma OpeningIsTranscript(s: Submission)
    ensures IsTranscript(Opening(s.courseText, s.examType), s)
  {
    var o := Opening(s.courseText, s.examType);
    assert o[..2] == o;
  }

  class Session {
    var curPage: Option<string>
    var tokenCounts: Option<map<string, Usage>>
    var submitted: Option<bool>
    var messages: Option<seq<Message>>
    var submission: Option<Submission>

    /** What holds of the state between any two events. */
    ghost predicate Valid()
      reads this
    {
      && (curPage.None? ==> tokenCounts.None? && submitted.None? && messages.None? && submission.None?)
      && (tokenCounts.Some? ==> tokenCounts.value.Keys == ModelSet())
      && (submission.Some? ==> submission.value.modelChoice in ModelSet())
      && (submitted == Some(true) ==> submission.Some?)
      && (messages.Some? ==> submitted == Some(true) && IsTranscript(messages.value, submission.value))
    }

    /** The page script has run its entry block and the intake or chat screen is shown. */
    ghost predicate OnPage()
      reads this
    {
      curPage == Some(ExamAllyPage) && tokenCounts.Some? && submitted.Some?
    }

    /** A new browser session: nothing is stored yet. */
    constructor ()
      ensures Valid()
      ensures curPage.None? && tokenCounts.None? && submitted.None? && messages.None? && submission.None?
    {
      curPage, tokenCounts, submitted, messages, submission := None, None, None, None, None;
    }

    /** Page entry: start counting afresh and drop the conversation when coming from
        another page; keep everything on a re-run of this page. A missing cur_page
        is set first, so it does not count as coming from another page. */
    method EnterExamAlly()
      requires Valid()
      modifies this
      ensures Valid() && OnPage()
      ensures var fromElsewhere := old(curPage).Some? && old(curPage).value != ExamAllyPage;
        && tokenCounts == (if old(tokenCounts).None? || fromElsewhere then Some(FreshCounts()) else old(tokenCounts))
        && submitted == (if old(submitted).None? || fromElsewhere then Some(false) else old(submitted))
        && messages == (if fromElsewhere then None else old(messages))
      ensures submission == old(submission)
    {
      if curPage.None? {
        curPage := Some(ExamAllyPage);
      }
      if tokenCounts.None? || curPage.value != ExamAllyPage {
        tokenCounts := Some(FreshCounts());
      }
      if submitted.None? || curPage.value != ExamAllyPage {
        submitted := Some(false);
      }
      if curPage.value != ExamAllyPage && messages.Some? {
        messages := None;
      }
      curPage := Some(ExamAllyPage);
    }

    /** Another page's entry, which records that page as the current one
        (the home page sets "chatgpt"). */
    method EnterOtherPage(page: string)
      requires Valid() && page != ExamAllyPage
      modifies this`curPage
      ensures Valid()
      ensures curPage == Some(page)
    {
      curPage := Some(page);
    }

    /** The Submit button of the intake screen. All three inputs must be present;
        the course PDF is cut to its first MaxPdfPages pages, turned into text by
        `toMarkdown`, and stored with the model and exam question style. */
    method Submit<Page>(modelChoice: Option<string>, courseDoc: Option<seq<Page>>,
                        examType: Option<string>, toMarkdown: seq<Page> -> string)
      returns (accepted: bool)
      requires Valid() && OnPage() && submitted == Some(false)
      requires modelChoice.Some? ==> modelChoice.value in ModelSet()
      modifies this`submission, this`submitted
      ensures Valid() && OnPage()
      ensures accepted <==> Filled(modelChoice) && courseDoc.Some? && Filled(examType)
      ensures accepted ==>
        var doc := courseDoc.value;
        && submission == Some(Submission(modelChoice.value, toMarkdown(doc[..Min(|doc|, MaxPdfPages)]), examType.value))
        && submitted == Some(true)
      ensures !accepted ==> submission == old(submission) && submitted == Some(false)
    {
      if Filled(modelChoice) && courseDoc.Some? && Filled(examType) {
        var kept := TruncatePages(courseDoc.value);
        var courseText := toMarkdown(kept);
        submission := Some(Submission(modelChoice.value, courseText, examType.value));
        submitted := Some(true);
        accepted := true;
      } else {
        accepted := false;
      }
    }

    /** The chat screen: `messages` is created, once, as the system prompt built
        from the submission followed by the fixed greeting. */
    method StartChat()
      requires Valid() && OnPage() && submitted == Some(true)
      modifies this`messages
      ensures Valid() && OnPage()
      ensures messages == if old(messages).None?
        then Some(Opening(submission.value.courseText, submission.value.examType))
        else old(messages)
    {
      if messages.None? {
        messages := Some(Opening(submission.value.courseText, submission.value.examType));
        OpeningIsTranscript(submission.value);
      }
    }

    /** One chat turn: a non-empty prompt is appended, the whole history is sent to
        `complete` for the submitted model, the tokens it reports are added to that
        model's counters and its reply is appended. */
    method ChatTurn(prompt: string, complete: (string, seq<Message>) -> Completion)
      requires Valid() && OnPage() && submitted == Some(true) && messages.Some?
      modifies this`messages, this`tokenCounts
      ensures Valid() && OnPage()
      ensures prompt == "" ==> messages == old(messages) && tokenCounts == old(tokenCounts)
      ensures prompt != "" ==>
        var model := submission.value.modelChoice;
        var reply := complete(model, old(messages).value + [Message(User, prompt)]);
        && messages == Some(old(messages).value + Exchange(prompt, reply.text))
        && tokenCounts == Some(Add(old(tokenCounts).value, Charge(model, reply.inputTokens, reply.outputTokens)))
    {
      if prompt != "" {
        var model := submission.value.modelChoice;
        var history := messages.value;
        messages := Some(history + [Message(User, prompt)]);
        var reply := complete(model, messages.value);
        var counts := tokenCounts.value;
        tokenCounts := Some(Add(counts, Charge(model, reply.inputTokens, reply.outputTokens)));
        ExchangeKeepsAlternation(history, prompt, reply.text, 2);
        assert history + Exchange(prompt, reply.text) == messages.value + [Message(Assistant, reply.text)];
        messages := Some(messages.value + [Message(Assistant, reply.text)]);
        assert messages.value[..2] == history[..2];
      }
    }
  }
}

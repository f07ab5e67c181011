# ChatISA Exam Ally: session state machine in Dafny

ChatISA is a Streamlit chatbot front-end for students. Its Exam Ally page
takes a course PDF, a model choice and an exam question style. It then runs a
practice-exam conversation with a hosted LLM and exports the conversation to a
PDF. Streamlit re-runs the page script on every interaction. The only state
that survives between runs is `st.session_state`, so the page's behaviour is a
state machine over that dictionary.

This project models that state machine and proves what it promises:

- `ExamAllySession.Session` is the session state. It has one `Option` field
  per key the page reads: `cur_page`, `token_counts`, `submitted`,
  `messages` and `submission`. `None` means the key is missing from
  `st.session_state`.
- Each event the page reacts to is one method:
  - `EnterExamAlly`: the page's entry block.
  - `EnterOtherPage`: another page, such as the home page, records itself as
    the current page.
  - `Submit`: the intake form.
  - `StartChat`: creates the conversation.
  - `ChatTurn`: one prompt and one reply.
- `Valid()` is the invariant every event keeps:
  - `token_counts` has exactly the offered models as keys.
  - A stored submission names an offered model.
  - `messages`, when present, belongs to a submitted session. It is the
    system prompt and the greeting followed by alternating user and assistant
    messages.
- `PdfPages.TruncatePages` keeps only the first 30 pages of a course PDF. It
  uses a loop, like the `PdfWriter` loop in the source.
- `ExamPrompt` holds the system-prompt template. Its fixed text is a
  `Template` record. The lemmas prove where the course text and the exam
  question style appear in the prompt, for every template.
- `Chat` holds messages and the effect of a series of chat turns.
- `TokenUsage` holds the per-model token counters and what a series of turns
  adds to them.
- `ChatExport` builds the name of the exported PDF.

The completion call and the PDF-to-markdown conversion are parameters of the
methods that use them. `ChatTurn` receives `complete` and `Submit` receives
`toMarkdown`. A PDF is modelled as its sequence of pages.

## Model

| member | source | states |
|---|---|---|
| `PdfPages.TruncatePages` | pages/03_exam_ally.py:129-134 | keeps exactly the first min(n, 30) pages, in their original order; a document of at most 30 pages is left unchanged |
| `ExamPrompt.PromptLayout` | pages/03_exam_ally.py:171-216 | `SystemPrompt` renders `ExamAllyTemplate`, whose fixed parts are the f-string's literal text. For every template, the rendered prompt starts with the fixed tutor instructions. It then holds the course text verbatim, and after it the exam question style verbatim. It ends with the fixed policy text |
| `ExamPrompt.PolicyIgnoresExamType` | pages/03_exam_ally.py:181-186 | for every exam question style, the prompt ends with the same policy text, which carries both the 10-question rule and the 4-5-question rule at fixed places |
| `ExamPrompt.PromptDeterminesContext` | pages/03_exam_ally.py:171-180 | given the length of the course text, equal prompts come from equal course texts and equal exam question styles |
| `Chat.ExchangeKeepsAlternation` | pages/03_exam_ally.py:236-269 | one turn grows the history by exactly two messages, leaves every earlier message in place and keeps the user/assistant alternation |
| `Chat.ReplayKeepsHistory` | pages/03_exam_ally.py:234-269 | after k turns the history has grown by 2k messages; every earlier message, including the system message, is unchanged; turn i's prompt and reply sit at the 2i-th and (2i+1)-th new positions |
| `TokenUsage.FreshCounts` | pages/03_exam_ally.py:52-53 | the counters on entry have exactly the two offered models as keys, each with 0 input and 0 output tokens |
| `TokenUsage.Add` | pages/03_exam_ally.py:265-266 | a turn adds exactly the reported input and output tokens to the selected model; the other model's counters and the key set are unchanged |
| `TokenUsage.CountersSumCharges` | pages/03_exam_ally.py:265-266 | after any series of turns, each model's counters equal their old values plus the sum of the tokens charged to that model, so they never decrease; the key set is unchanged |
| `ChatExport.ReplaceSpaces` | pages/03_exam_ally.py:279-281 | same length as the input; every space becomes `_` and every other character is kept |
| `ChatExport.ReplaceSpacesNormalises` | pages/03_exam_ally.py:279-281 | the normalised text has no spaces, and normalising it again changes nothing |
| `ChatExport.ExportFileName` | pages/03_exam_ally.py:278-286 | a file name is produced exactly when the name and the course are both non-empty; it has no spaces and reads normalised course, `_`, normalised name, `_chatisa.pdf` |
| `ExamAllySession.OpeningIsTranscript` | pages/03_exam_ally.py:220-227 | the opening pair (system prompt, then the fixed user greeting) is a well-formed transcript for its submission |
| `ExamAllySession.Session.constructor` | pages/03_exam_ally.py:49-56 | a new browser session has none of the keys the page reads |
| `ExamAllySession.Session.EnterExamAlly` | pages/03_exam_ally.py:48-62 | afterwards `cur_page` is "exam_ally"; coming from another page gives fresh counters and `submitted` false and drops `messages`; missing counters or a missing `submitted` are initialised; on a re-run of this page the counters, `submitted` and `messages` are unchanged; `submission` is never touched; a missing `cur_page` does not count as coming from another page |
| `ExamAllySession.Session.EnterOtherPage` | chatgpt.py:36-37 | the current page becomes the other page's id, which is never "exam_ally", and nothing else changes |
| `ExamAllySession.Session.Submit` | pages/03_exam_ally.py:120-154 | accepted exactly when the model choice, the course document and the exam question style are all present; it then stores the model, the text of the first min(n, 30) pages and the style, and sets `submitted`; otherwise nothing is stored and `submitted` stays false |
| `ExamAllySession.Session.StartChat` | pages/03_exam_ally.py:219-227 | when `messages` is absent it becomes exactly [system prompt built from the submission, the fixed user greeting]; otherwise it is unchanged |
| `ExamAllySession.Session.ChatTurn` | pages/03_exam_ally.py:234-269 | an empty prompt changes nothing. Otherwise the prompt is appended and the history, with the prompt, is sent for the submitted model. The reported tokens go to that model's counters and the reply is appended. All earlier messages are unchanged |

## Left out

- Streamlit rendering is not modelled. This covers headings, columns, the sidebar, the chat display loop, the expander and the download button. It is user interface only.
- `chatgeneration.generate_chat_completion` is a parameter `complete` returning the reply and two token counts. It calls network LLM providers whose code is not part of this model. Its temperature (0.25) and token limit (3000) are passed through and not modelled.
- ExamAllySession.Session.ChatTurn: provider failures are not modelled because `complete` is total. In the source the user's prompt is appended before the call, so a call that raised would leave that prompt in `messages` without a reply.
- PDF and file handling is not modelled. This covers the temporary file, `PdfReader`/`PdfWriter`, `os.unlink` and `to_markdown`. `to_markdown` is a parameter `toMarkdown`. Only the page-count rule is kept, over an abstract sequence of pages. Corrupt PDFs and extraction errors are not modelled.
- `chatpdf.create_pdf` (the PDF content) is not part of this model. Only the rule that decides whether a file is produced, and its name, is modelled.
- Loading the API keys from the environment is configuration I/O and is not modelled.
- The question-count and pacing policy is instruction text sent to the model. The code has no branch on it, so it is not modelled as behaviour. `ExamPrompt.PolicyIgnoresExamType` states that the same text is sent for every exam question style.
- ExamAllySession.Session.EnterOtherPage models only the `cur_page` assignment. The other pages' own state handling is not part of this model, except the home page's `cur_page` assignment.
- `chatgpt.py`'s menu, animation and page switching are navigation UI and are not modelled.
- Streamlit widget keys are not modelled as session fields. These are `model_choice`, `course_doc` and `exam_type`. Their values are the parameters of `Submit`.
- `Submit` requires that a model choice, when present, is one of the offered models. The select box offers only those.
- `ChatTurn` requires that `messages` exists. In the page script `StartChat` always runs first.
- Token counts are `nat`. Python integers are unbounded, so no wrap-around is lost.

## Notes on behaviour

- The prompt has no branch on the exam question style. It always carries both the 10-question rule and the 4-5-question rule, and leaves the choice to the LLM.
- Only the space character is replaced in the export file name. Tabs and other whitespace stay.
- Entering the page keeps `submission`. When the session has no `cur_page` yet, an existing `messages` is kept too, because the page records itself as current before it compares.

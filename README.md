# A learning-notebook front end, modelled in Dafny

The application is a single-page notebook. A floating "+" button opens a menu of
fourteen content kinds. Each kind has a dialog, and a dialog's submit adds a content
block to the feed. Two components do real work inside the feed: a three-question
self-check quiz and a PDF page selector. A code viewer colours Python source with
four regular-expression passes.

This project models five parts of the application:

- **The content feed** (`feed.dfy`, module `Feed`).
  - `handleAddContent` becomes `ContentStore.AddContent`. It appends one block made of the
    tag, the payload and two clock readings.
  - `renderContentBlock` becomes `Render`, a total function from a block to a `View`. A
    `View` records the title and the values each rendering rule shows, not its markup.
- **The capture menu and its dialogs** (`capture.dfy`, module `Capture`).
  - The menu is the `AddMenu` class, with `isOpen` and `showModal`.
  - The dialog table is `LookupModal`, over the fourteen-constructor datatype `Modal`.
  - Each dialog's submit handler is a payload builder returning `Option<Data>`. `None` means
    the handler returns without submitting.
  - The dialogs with steps before the submit are classes: image search, AI image, audio
    recording and screenshot. Each timer they start is a counter of pending completions,
    and each completion is a separate method.
- **The quiz** (`quiz.dfy`, module `Quiz`).
  - The transitions are functions on a `QuizState` value.
  - The `QuizEngine` class holds the five state fields, plus a count of pending generation
    timers. Each handler is proved to perform exactly its transition.
  - Scoring is a fold. A lemma proves that the score is the number of correctly answered
    questions.
- **PDF page selection** (`pages.dfy`, module `Pages`).
  - Toggle and range selection are functions on lists that keep the list free of duplicates.
  - The `PageSelector` class keeps the selection in an `array<int>`, because the summary
    sorts that very array in place.
- **Syntax highlighting** (`highlight.dfy`, module `Highlight`).
  - `highlightCode` is four global `replace` passes. Each pass is a scanner that splits its
    input into copied characters and wrapped runs; markup is then added around each run.
  - Later passes see the markup inserted by earlier passes, and this is modelled as it
    happens.

`payload.dfy` (module `Payload`) holds the JavaScript value semantics the other modules
need:

- payload objects as maps from keys to values, where a missing key reads as `undefined`;
- truthiness, and `||` returning one of its operands;
- the text a template literal prints;
- `String.prototype.trim` over the ECMAScript white-space and line-terminator set.

## Model

| member | source | states |
|---|---|---|
| Payload.Or | src/App.tsx:62-64 | `a \|\| b` is `a` when `a` is truthy and `b` otherwise; the result is truthy iff either operand is |
| Payload.OrElse | src/components/FloatingAddMenu.tsx:276 | `s \|\| fallback` on a text field keeps a non-empty string and otherwise gives the fallback, so the result is empty only when both are |
| Payload.ToText | src/App.tsx:48 | `${v}` prints a string as itself, `undefined` as "undefined", `null` as "null", a file object as "[object File]", and a number as its decimal text: a leading "-" exactly when it is negative, then digits with no leading zero |
| Payload.NatToString | src/App.tsx:48 | a natural number prints as digits only, "0" for zero and otherwise without a leading zero |
| Payload.ToTextNumber | src/App.tsx:48 | the printed digits of a number read back as its magnitude, after a "-" for a negative number, and carry no leading zero |
| Payload.ParseNatToString | src/App.tsx:140-142 | the decimal text of a day number reads back as that number |
| Payload.TrimStart | src/components/FloatingAddMenu.tsx:459 | trimming the front drops exactly a leading run of white space and line terminators, and keeps the rest as a suffix |
| Payload.TrimEnd | src/components/FloatingAddMenu.tsx:459 | trimming the back drops exactly a trailing run of white space and line terminators, and keeps the rest as a prefix |
| Payload.TrimEmptyIffBlank | src/components/FloatingAddMenu.tsx:959 | `s.trim()` is empty iff every character of `s` is white space or a line terminator |
| Feed.ContentStore.AddContent | src/App.tsx:33-42 | the store becomes the old blocks followed by one new block; its id and timestamp are the clock readings, and its tag and data are the arguments |
| Feed.AddAll | src/App.tsx:40 | a sequence of adds leaves the old blocks in place and appends one block per add, in the order of the adds |
| Feed.CalendarCells | src/App.tsx:140-142 | the calendar grid has 35 cells: the days 1 to 31 in order, each as its decimal text without a leading zero, then four empty cells |
| Feed.Render | src/App.tsx:44-161 | rendering is total: each named tag takes its own rule, and any other tag takes the generic rule titled "<tag> Content" showing the raw data |
| Feed.RenderImage | src/App.tsx:58-74 | the image title is "Image: " plus the source, or "Uploaded" when the source is falsy; the image is the url, or the preview when the url is falsy; the captions follow truthiness |
| Feed.ImageTagsShareRule | src/App.tsx:58-60 | the three image tags are rendered by the one image rule |
| Feed.FeedView | src/App.tsx:385 | the feed shows one view per stored block, in store order |
| Feed.FeedAfterAdd | src/App.tsx:385 | after an add, every earlier view stays in place and the new block's view comes last |
| Feed.UnlistedTagsAreGeneric | src/App.tsx:150-159 | the menu's doc, screenshot, video-upload, audio and website tags have no rule of their own and are shown by the generic rule |
| Quiz.QuestionsWellFormed | src/components/SmartQuizGenerator.tsx:19-56 | there are three questions; each has at least two options and a correct answer that indexes one of them |
| Quiz.StartGenerating | src/components/SmartQuizGenerator.tsx:58-59 | starting generation raises the spinner flag and changes nothing else |
| Quiz.GenerationDone | src/components/SmartQuizGenerator.tsx:60-66 | generation completes into a valid in-progress quiz at the first question, with no answers |
| Quiz.Select | src/components/SmartQuizGenerator.tsx:69-73 | selecting records the answer at the current question, overwriting an earlier one; every other answer, the index and the flags are unchanged |
| Quiz.Next | src/components/SmartQuizGenerator.tsx:75-81 | from an answered question, Next moves one question on, or shows the results at the last question; the answers are unchanged and the state stays valid |
| Quiz.Previous | src/components/SmartQuizGenerator.tsx:241-242 | Previous moves one question back and never goes below the first; the answers are unchanged |
| Quiz.Reset | src/components/SmartQuizGenerator.tsx:83-88 | reset returns to the start screen with index 0, no answers and no results, from any state; the spinner flag is kept |
| Quiz.Score | src/components/SmartQuizGenerator.tsx:90-94 | the score never exceeds the number of recorded answers |
| Quiz.ScoreCountsCorrect | src/components/SmartQuizGenerator.tsx:90-94 | the score equals the number of positions whose recorded answer is the correct one, the test the review screen applies per question |
| Quiz.Percentage | src/components/SmartQuizGenerator.tsx:129 | the percentage is the nearest whole number to score/n·100, with halves rounded up, and lies in 0..100 when score ≤ n |
| Quiz.Progress | src/components/SmartQuizGenerator.tsx:205 | the progress badge is between 1 and 100, and is 100 at the last question |
| Quiz.ScoreExample | src/components/SmartQuizGenerator.tsx:90-94 | the answers 1, 0, 2 score two out of three, which is 67% |
| Quiz.PlaythroughExample | src/components/SmartQuizGenerator.tsx:58-94 | generating, then answering 1, 0, 2 with Next after each, ends on the results screen with score 2 |
| Quiz.GenerationDoneIdempotent | src/components/SmartQuizGenerator.tsx:60-66 | completing generation twice gives the same state as completing it once |
| Quiz.NavigationKeepsAnswers | src/components/SmartQuizGenerator.tsx:75-81 | Previous and Next never change the recorded answers or the score |
| Quiz.QuizEngine.GenerateQuiz | src/components/SmartQuizGenerator.tsx:58-67 | the handler performs StartGenerating and starts one more generation timer |
| Quiz.QuizEngine.GenerationTimerFired | src/components/SmartQuizGenerator.tsx:60-66 | a pending timer fires and the state becomes GenerationDone of the old state |
| Quiz.QuizEngine.HandleAnswerSelect | src/components/SmartQuizGenerator.tsx:69-73 | the handler performs Select |
| Quiz.QuizEngine.NextQuestion | src/components/SmartQuizGenerator.tsx:75-81 | the handler performs Next |
| Quiz.QuizEngine.PreviousQuestion | src/components/SmartQuizGenerator.tsx:241 | the handler performs Previous |
| Quiz.QuizEngine.ResetQuiz | src/components/SmartQuizGenerator.tsx:83-88 | the handler performs Reset and leaves pending timers running |
| Quiz.QuizEngine.Results | src/components/SmartQuizGenerator.tsx:127-129 | the results screen shows the number of correct answers (at most 3) and its rounded percentage, in 0..100 |
| Pages.Remove | src/components/PDFPageSelector.tsx:16 | filtering out a page drops every occurrence of it, keeps every other element, and keeps a list free of duplicates |
| Pages.RemoveAppend | src/components/PDFPageSelector.tsx:16 | the filter distributes over concatenation, so each element is judged on its own and the survivors keep their order |
| Pages.RemoveSingle | src/components/PDFPageSelector.tsx:16 | a single element survives the filter exactly when it is not the page |
| Pages.RemoveCount | src/components/PDFPageSelector.tsx:16 | the filter removes every copy of the page and keeps every other value as many times as it occurred |
| Pages.Toggle | src/components/PDFPageSelector.tsx:14-18 | toggling flips whether that page is selected and no other page; an unselected page is appended at the end; a selected page is filtered out with the rest kept in order (`Remove`); no duplicates are introduced |
| Pages.Range | src/components/PDFPageSelector.tsx:23 | the range holds start, start+1, …, end in order, and is empty when end < start |
| Pages.Dedup | src/components/PDFPageSelector.tsx:24 | deduplication keeps exactly the values of its input, each once |
| Pages.DedupPrefix | src/components/PDFPageSelector.tsx:24 | deduplication keeps first occurrences in order: a prefix's result is a prefix of the whole result |
| Pages.DedupNoDup | src/components/PDFPageSelector.tsx:24 | a list without duplicates is unchanged by deduplication |
| Pages.SelectRangeSpec | src/components/PDFPageSelector.tsx:22-27 | selecting a range keeps the old selection in order at the front, adds every page of the range, holds no page twice, and changes nothing for an empty range |
| Pages.SelectButtonsBounds | src/components/PDFPageSelector.tsx:95-101 | "Select Next 3" adds only pages from the current page up to the last page, at most two past the current one; "Select 1-5" always selects 1 to 5, however short the document |
| Pages.PrevPage | src/components/PDFPageSelector.tsx:48 | `Math.max(1, currentPage - 1)`: one less when the page is above 1, and 1 otherwise |
| Pages.NextPage | src/components/PDFPageSelector.tsx:58 | `Math.min(totalPages, currentPage + 1)`: one more when the page is below the last, and the page count otherwise |
| Pages.NavigationStaysInDocument | src/components/PDFPageSelector.tsx:48-58 | from a page inside the document, both buttons stay inside it |
| Pages.PageSelector.SetSelected | src/components/PDFPageSelector.tsx:18-19 | the selection becomes a fresh array holding the new list, and that list is reported to the parent |
| Pages.PageSelector.TogglePage | src/components/PDFPageSelector.tsx:14-20 | the selection becomes Toggle of the old one and is reported; it stays free of duplicates |
| Pages.PageSelector.SelectPageRange | src/components/PDFPageSelector.tsx:22-27 | the selection becomes the range selection of the old one and is reported; it stays free of duplicates |
| Pages.PageSelector.PreviousPage | src/components/PDFPageSelector.tsx:48 | the current page becomes PrevPage of the old one and stays in the document |
| Pages.PageSelector.NextPageClicked | src/components/PDFPageSelector.tsx:58 | the current page becomes NextPage of the old one and stays in the document |
| Pages.PageSelector.SortForDisplay | src/components/PDFPageSelector.tsx:115 | the held array is sorted ascending in place and is a permutation of its old contents, still without duplicates |
| Pages.InsertIntoSorted | src/components/PDFPageSelector.tsx:115 | one insertion step extends the sorted prefix by one element and permutes the array |
| Highlight.FirstWhereSpec | src/components/CodeEditor.tsx:36-38 | the scan stops at the first stopping character after the start, or at the end of the text |
| Highlight.FirstPrefixSpec | src/components/CodeEditor.tsx:34 | the alternative chosen is the first one in list order that starts the text; none is chosen iff no alternative does |
| Highlight.KeywordMatchSpec | src/components/CodeEditor.tsx:34-35 | the keyword pass matches iff some keyword starts the text, with no word boundary, and then takes the first keyword of the list that does |
| Highlight.StringMatchSpec | src/components/CodeEditor.tsx:36 | the string pass matches the shortest quoted run on one line, and nothing when no closing quote comes before the line ends |
| Highlight.CommentMatchSpec | src/components/CodeEditor.tsx:37 | the comment pass matches from `#` to the end of the line |
| Highlight.DigitMatchSpec | src/components/CodeEditor.tsx:38 | the digit pass matches a maximal run of digits |
| Highlight.ScanLossless | src/components/CodeEditor.tsx:33-38 | each pass only adds markup: with the wrappers taken off, its pieces are exactly its input |
| Highlight.NoMatchBeforeAt | src/components/CodeEditor.tsx:34-38 | a run with no match starting anywhere inside it is what the recursive no-match predicate describes |
| Highlight.ScanPlainRun | src/components/CodeEditor.tsx:34-38 | a run with no match starting inside it is copied unchanged ahead of the scan of the rest |
| Highlight.ScanPlainPrefix | src/components/CodeEditor.tsx:34-38 | a prefix where no match starts is copied unchanged |
| Highlight.MarkupPlains | src/components/CodeEditor.tsx:34-38 | copied characters come through the markup unchanged |
| Highlight.ApplyNoMatch | src/components/CodeEditor.tsx:34-38 | a pass over text where its pattern never matches returns the text unchanged |
| Highlight.PlainCodeUnchanged | src/components/CodeEditor.tsx:32-39 | code with no keyword, no quote, no `#` and no digit is returned unchanged by the whole highlighter |
| Highlight.KeywordOrderExample | src/components/CodeEditor.tsx:34 | "elif" and "else" are each wrapped whole, although "if" is an earlier keyword inside "elif" |
| Highlight.KeywordInsideWordExample | src/components/CodeEditor.tsx:34 | in "define" the keyword "def" is wrapped and "ine" is copied: matches are found inside words |
| Highlight.StringPassRescansKeywordMarkup | src/components/CodeEditor.tsx:34-36 | the string pass wraps the quoted class name inside the span that the keyword pass inserted |
| Highlight.DigitPassRescansClassNames | src/components/CodeEditor.tsx:36-38 | the digit pass wraps the "300" inside the class name that the string pass inserted |
| Capture.LookupModal | src/components/FloatingAddMenu.tsx:168-185 | the dialog table finds a dialog only under that dialog's own tag; any other id yields nothing |
| Capture.ModalFor | src/components/FloatingAddMenu.tsx:165-186 | no dialog is shown while `showModal` is null or empty; a dialog shown is the one whose tag `showModal` holds |
| Capture.TagRoundTrip | src/components/FloatingAddMenu.tsx:168-183 | every dialog is found under its own tag |
| Capture.TagOfInjective | src/components/FloatingAddMenu.tsx:168-183 | no two dialogs share a tag |
| Capture.MenuMatchesTable | src/components/FloatingAddMenu.tsx:29-153 | the menu lists fourteen option ids; each opens a dialog, and every dialog is reachable from the menu |
| Capture.MenuOptionsDistinct | src/components/FloatingAddMenu.tsx:29-153 | no option id is listed twice |
| Capture.PdfSubmit | src/components/FloatingAddMenu.tsx:271-280 | the PDF dialog submits iff a file is chosen, with the file, its name, and the pages text, which defaults to "all" |
| Capture.DocumentSubmit | src/components/FloatingAddMenu.tsx:335-344 | the document dialog submits iff a file is chosen, storing that file, its name and its MIME type |
| Capture.ImageUploadSubmit | src/components/FloatingAddMenu.tsx:398-407 | the image upload submits iff a file is chosen and stores that file and its name; the preview is null until the file reader has delivered it, and the delivered data URL afterwards |
| Capture.ImageSearchSubmit | src/components/FloatingAddMenu.tsx:475-484 | image search submits iff a result is selected, with its url, the query and the source "Google Images" |
| Capture.AIImageSubmit | src/components/FloatingAddMenu.tsx:573-582 | the AI image dialog submits iff an image was generated, with the prompt, the style and the source "AI Generated" |
| Capture.ScreenshotPayload | src/components/FloatingAddMenu.tsx:673-680 | a capture submits the stock image under source "Screenshot", with the clock reading taken when its timer fires |
| Capture.YouTubeSubmit | src/components/FloatingAddMenu.tsx:726-735 | the YouTube dialog submits iff the url is non-empty, under the fixed title "YouTube Video" |
| Capture.VideoUploadSubmit | src/components/FloatingAddMenu.tsx:779-788 | the video upload submits iff a file is chosen, storing that file, its name and source "Upload" |
| Capture.AudioSubmit | src/components/FloatingAddMenu.tsx:858-867 | the audio dialog submits iff a file is present, storing that file under source "Recording", and its duration is the recording counter |
| Capture.CodeSubmit | src/components/FloatingAddMenu.tsx:957-967 | the code dialog submits iff the code does not trim to nothing, and then submits the code payload |
| Capture.CodePayload | src/components/FloatingAddMenu.tsx:960-965 | the code payload holds the code and language, and the title, which defaults to "<language> code" |
| Capture.CodeSubmitRefusesBlank | src/components/FloatingAddMenu.tsx:959 | code made only of white space and line breaks is refused, and anything else is accepted |
| Capture.CodeDefaultsShown | src/components/FloatingAddMenu.tsx:945 | non-blank code submitted with the initial language and an empty title is stored as "python" under the title "python code" |
| Capture.CodeDialog.SetCode | src/components/FloatingAddMenu.tsx:1008 | typing replaces the code |
| Capture.CodeDialog.SetLanguage | src/components/FloatingAddMenu.tsx:993 | the selector sets one of the six listed languages |
| Capture.CodeDialog.SetTitle | src/components/FloatingAddMenu.tsx:981 | typing replaces the title |
| Capture.CodeDialog.Submit | src/components/FloatingAddMenu.tsx:957-967 | the dialog submits CodeSubmit of its fields, which succeeds iff the code is not blank, under one of the listed languages |
| Capture.CalculatorPayload | src/components/FloatingAddMenu.tsx:1038-1044 | the calculator submits unconditionally, titled "Interactive Calculator" |
| Capture.CalendarPayload | src/components/FloatingAddMenu.tsx:1075-1081 | the calendar submits unconditionally, titled "Study Calendar" |
| Capture.LinkSubmit | src/components/FloatingAddMenu.tsx:1115-1124 | the link and website dialogs submit iff the url is non-empty; the title defaults to the url, so it is always truthy |
| Capture.PdfSubmitShown | src/App.tsx:46-56 | a submitted PDF is shown titled "PDF: " plus its file name, with its pages |
| Capture.CodeSubmitShown | src/App.tsx:91-96 | submitted code is shown under its title (or "<language> code"), with its code and language |
| Capture.WebLinkSubmitShown | src/App.tsx:98-112 | a submitted link is titled "Link: " plus its title (or url), pointing at the url |
| Capture.WebsiteSubmitShown | src/components/FloatingAddMenu.tsx:1183-1192 | a submitted website carries the source "Website Embed" and the url as its default title, and the feed shows it by the generic rule |
| Capture.ImageSearchSubmitShown | src/App.tsx:58-74 | a searched image is titled "Image: Google Images", shows the chosen result, and carries the query as its only caption |
| Capture.ImageUploadSubmitShown | src/App.tsx:58-74 | an uploaded image has no source and no url, so it is titled "Image: Uploaded" and shows its preview |
| Capture.AIImageSubmitShown | src/App.tsx:58-74 | a generated image is titled "Image: AI Generated", shows the image, and carries the prompt as its only caption |
| Capture.AddMenu.ToggleMenu | src/components/FloatingAddMenu.tsx:191 | the floating button flips the menu and leaves the dialog alone |
| Capture.AddMenu.CloseMenu | src/components/FloatingAddMenu.tsx:206-210 | a click on the overlay closes the menu and leaves the dialog alone |
| Capture.AddMenu.OptionClick | src/components/FloatingAddMenu.tsx:155-158 | choosing an option closes the menu and opens the dialog whose tag is that option's id |
| Capture.AddMenu.ModalSubmit | src/components/FloatingAddMenu.tsx:160-163 | a submit adds exactly one block under the given tag and then closes the dialog |
| Capture.AddMenu.FormSubmit | src/components/FloatingAddMenu.tsx:168-183 | a refused payload changes nothing; an accepted one adds one block under the dialog's own tag and closes it |
| Capture.AddMenu.Cancel | src/components/FloatingAddMenu.tsx:169 | Cancel closes the dialog without adding anything |
| Capture.ImageSearch.SetQuery | src/components/FloatingAddMenu.tsx:495 | typing replaces the query |
| Capture.ImageSearch.Search | src/components/FloatingAddMenu.tsx:458-473 | a blank query changes nothing; otherwise searching starts and one search timer is pending |
| Capture.ImageSearch.SearchCompleted | src/components/FloatingAddMenu.tsx:463-472 | a search timer fires: the four stock results replace the old ones and searching stops |
| Capture.ImageSearch.Choose | src/components/FloatingAddMenu.tsx:515 | clicking a result selects it |
| Capture.ImageSearch.Submit | src/components/FloatingAddMenu.tsx:475-484 | the dialog submits ImageSearchSubmit of its state, which succeeds iff a result is selected |
| Capture.ChosenResultSubmits | src/components/FloatingAddMenu.tsx:463-484 | any chosen stock result can be submitted |
| Capture.AIImage.SetPrompt | src/components/FloatingAddMenu.tsx:595 | typing replaces the prompt |
| Capture.AIImage.SetStyle | src/components/FloatingAddMenu.tsx:608 | a style button sets one of the four style ids |
| Capture.AIImage.Generate | src/components/FloatingAddMenu.tsx:561-571 | a blank prompt changes nothing; otherwise generation starts and one generation timer is pending |
| Capture.AIImage.GenerationCompleted | src/components/FloatingAddMenu.tsx:566-570 | a generation timer fires: the stock image becomes the generated image and generation stops |
| Capture.AIImage.Submit | src/components/FloatingAddMenu.tsx:573-582 | once an image exists the dialog submits it, with the chosen style |
| Capture.GeneratedImageSubmits | src/components/FloatingAddMenu.tsx:566-582 | after generation completes, submitting succeeds with the default style "diagram" |
| Capture.AudioRecorder.StartRecording | src/components/FloatingAddMenu.tsx:833-849 | starting resets the counter to 0 and starts one interval and one auto-stop timer |
| Capture.AudioRecorder.Tick | src/components/FloatingAddMenu.tsx:837-839 | a live interval adds one second to the counter |
| Capture.AudioRecorder.AutoStop | src/components/FloatingAddMenu.tsx:842-848 | the auto-stop ends the recording, clears its own interval and sets the stock recording as the file |
| Capture.AudioRecorder.StopRecording | src/components/FloatingAddMenu.tsx:851-856 | stopping sets the stock recording as the file but leaves the interval running |
| Capture.AudioRecorder.ChooseFile | src/components/FloatingAddMenu.tsx:917 | the upload input sets the file, or null when none is chosen |
| Capture.AudioRecorder.Submit | src/components/FloatingAddMenu.tsx:858-867 | the dialog submits AudioSubmit of its state, whose duration is the non-negative counter |
| Capture.StopThenTick | src/components/FloatingAddMenu.tsx:833-867 | after a start and a stop the duration submitted is 0, and one more interval tick raises it to 1 |
| Capture.Screenshot.Capture | src/components/FloatingAddMenu.tsx:669-671 | the capture button starts capturing and one capture timer |
| Capture.Screenshot.CaptureCompleted | src/components/FloatingAddMenu.tsx:673-680 | a capture timer fires: one screenshot block is added through the menu, the dialog closes, the menu's open flag is kept and capturing stops |
| Capture.CaptureAfterCancel | src/components/FloatingAddMenu.tsx:669-686 | a capture started before Cancel still adds a screenshot block after it |

## Left out

- Rendering, JSX, CSS classes, icons and the purely presentational components are not modelled. A view records only the title and the values shown.
- The generic rule prints the payload as indented JSON text. `GenericView` keeps the payload itself, not that text.
- The React `key={block.id}` is not modelled. Two adds with the same clock reading get the same id; the id is an input and is not proved unique.
- `Date.now()` and `new Date().toISOString()` are inputs. `AddContent` takes both readings, and the screenshot takes a third when its timer fires.
- Timers (`setTimeout`, `setInterval`) are pending counters with one completion method each. Their delays are not modelled. Completions can be interleaved in any order, as the code allows; there is no latest-request-wins guard.
- A chosen file is an opaque name and MIME type. Building the stock `File` for a recording is not modelled. The `FileReader` that makes the image preview is not modelled: the preview is an input.
- The browser's `required` and `type="url"` checks and `preventDefault` are not modelled. A dialog's guard is only the check its handler makes.
- Dialog state is lost when a dialog unmounts; the model does not capture this. Each dialog class describes one mounted instance.
- `AIImageGenerator.tsx`, the code viewer's run and copy buttons, and the clipboard are not part of this model.
- Quiz.Percentage and Quiz.Progress: these use integer arithmetic for `Math.round` over floating point, computing the nearest integer with halves rounded up. This agrees with the floating-point formula for the three-question list.
- Quiz.Select: it requires the state invariant that the current question is at most one past the last recorded answer. The handler would otherwise write into a sparse array, and no sequence of handlers reaches such a state.
- Quiz.Next: "the current question is answered" is a precondition, because the Next button is disabled otherwise.
- The quiz reset does not clear `isGenerating`. A generation timer started before a reset still fires and starts the quiz; the model keeps both behaviours.
- The Generate button on the results screen is live, so the quiz can regenerate from the results; the model allows this.
- "Select 1-5" is not limited by the page count, and the model keeps it unclamped.
- Pages.PageSelector.SortForDisplay: sorts the array held as state in place, but does not model that the lists already reported to the parent share storage with it. Each report is a copy in the model.
- The audio Stop button does not clear the interval, so the counter runs on until the auto-stop fires; the model keeps this behaviour.
- A screenshot capture submits even after its dialog was cancelled, because the timer holds the submit callback; the model keeps this behaviour.
- The highlighter's output is inserted as HTML; only the text it produces is modelled. It follows JavaScript's global `replace` on the text as a sequence of Unicode characters; surrogate pairs are never split, and the ASCII patterns are unaffected by this.
- A caption whose field is the number 0: the feed prints a lone "0" for it, while the model shows no caption. No dialog puts a number in `query` or `prompt`, so this does not arise.
- Console logging is dropped: the `console.log` of the new block in `handleAddContent` (src/App.tsx:41), and the page list the feed's `onPagesSelected` callback only logs (src/App.tsx:223), which `PageSelector.reported` stands for.
- The `try`/`catch` around the screenshot timer (src/components/FloatingAddMenu.tsx:671-685) is not modelled: scheduling the timer does not throw, so its error branch cannot run.

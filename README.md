# TechSolve AI chat front-end: a Dafny model

TechSolve AI is a browser chat front-end for technical troubleshooting. It
sends the user's text and optional photo to a hosted language model and shows
the answer with light markdown formatting and citation links. This project
models the four pieces of sequential logic in it, and proves what each one
promises:

- **Markdown line renderer** (`MarkdownRenderer.dfy`). An answer is split on
  line feeds, and each line is classified on its own. The first matching rule
  wins, tried in this order: `### `, `## ` and `# ` headings, a numbered item
  (`^\d+\.\s`), a `- `/`* ` bullet, a line wrapped in backticks, a paragraph.
- **Diagnostic console** (`TerminalOutput.dfy`). A class holding the log
  buffer. Its update rule runs when the console first appears and whenever
  its `(status, isActive)` inputs change. While active with a non-empty status,
  `"> " + status` is appended behind the last ten earlier lines. While active
  with an empty status, nothing changes. Once inactive, the buffer is cleared. A pure view function says when the console
  is drawn and when the cursor is shown.
- **Model client** (`GeminiService.dfy`). It builds the request: history turns
  with their roles mapped, then the new user turn with an optional inline
  JPEG part. It sends the request once through a transport oracle, then
  normalises the reply: a fixed apology replaces an empty text, missing
  citation metadata becomes an empty list, and errors pass through unchanged.
- **Chat orchestrator** (`App.dfy`). A class holding the conversation, the
  pending input and image, the selected domain, the progress indicator and
  the client. `HandleSend` is one turn: guard, append the user message, clear
  the inputs, enter the analyzing state, call the client with the history
  from before the turn, append one assistant message (the reply, or a fixed
  error text), return to idle. It also has "Clear Console", the scheduled
  progress updates, and two views: the sidebar's last five user messages, and
  the citation links that carry a `web` part.

Supporting modules: `Types.dfy` holds the records of `types.ts`.
`Wrappers.dfy` holds Option and Result. `JsString.dfy` and `JsArray.dfy`
model the JavaScript built-ins the code relies on (`startsWith`, `endsWith`,
`substring`, `replace`, `split`, `join`, `trim`, `\s`, `filter`,
`slice(-n)`). `substring`, `replace`, `split`, `join`, `trim`, `filter` and
`slice(-n)` have proved properties. `startsWith`, `endsWith` and the `\s`
character class are plain definitions.

Three facts about the code that the model keeps:

- The console keeps up to eleven lines: ten kept by `slice(-10)`, plus the
  new one (`TerminalOutput.FullBufferSlides`).
- Nothing but the disabled send button prevents overlapping requests. The
  Enter key (App.tsx:312-316) calls `handleSend`, which has no `isAnalyzing`
  check. The model's `HandleSend` has none either.
- Ids and timestamps are read from the clock separately for each message. The
  model takes them as inputs (`TurnClock`) and promises no order between the
  two messages of a turn.

## Model

| member | source | states |
|---|---|---|
| `MarkdownRenderer.Classify` | components/MarkdownRenderer.tsx:16-22 | the classification of one line by the if-chain; its contract is carried by `FirstMatchWins`, `KindIff`, `HeadingText`, `NumberedParts`, `BulletText`, `CodeText` and `ParagraphText` |
| `MarkdownRenderer.Render` | components/MarkdownRenderer.tsx:11-15 | one block per line of `split('\n')`; its contract is carried by `RenderCount`, `RenderLines`, `RenderLine` and `RenderConcat` |
| `MarkdownRenderer.FirstMatchWins` | components/MarkdownRenderer.tsx:16-22 | the rule that produced a line's block accepts the line, and none of the earlier rules (order H3, H2, H1, numbered, bullet, code, paragraph) does |
| `MarkdownRenderer.KindIff` | components/MarkdownRenderer.tsx:16-22 | each block kind comes from exactly the lines its rule describes; a paragraph is exactly a line that matches no other rule |
| `MarkdownRenderer.LevelThreeWins` | components/MarkdownRenderer.tsx:16-18 | a line starting with `### ` is a level-3 heading, never level 2 or 1 |
| `MarkdownRenderer.HeadingText` | components/MarkdownRenderer.tsx:16-18 | a heading has level 1 to 3, and its marker followed by its text gives back the line |
| `MarkdownRenderer.NumberedPatternIff` | components/MarkdownRenderer.tsx:19 | the longest-digit-run test accepts exactly the lines the regular expression `^\d+\.\s` matches |
| `MarkdownRenderer.NumberedParts` | components/MarkdownRenderer.tsx:19 | a numbered item's number is the non-empty digit run before the first dot; its body is everything after that dot, later dots kept, trimmed |
| `MarkdownRenderer.NumberedClassify` | components/MarkdownRenderer.tsx:19 | the line `n. step` for digits `n` is the item with number `n` and body `trim(step)` |
| `MarkdownRenderer.BulletText` | components/MarkdownRenderer.tsx:20 | a bullet starts with `- ` or `* `, and that marker followed by its text gives back the line |
| `MarkdownRenderer.CodeText` | components/MarkdownRenderer.tsx:21 | a code block comes from a line that starts and ends with a backtick and holds no backtick; for every code line of two or more characters it is `RemoveAll` of what lies between the end backticks (each backtick dropped, the rest kept in order, by `RemoveAllSingle` and `RemoveAllConcat`); with backticks only at the ends, it is exactly what lies between them |
| `MarkdownRenderer.LoneBacktick` | components/MarkdownRenderer.tsx:21 | a lone backtick is an empty code block |
| `MarkdownRenderer.ParagraphText` | components/MarkdownRenderer.tsx:22 | a paragraph's text is the line unchanged |
| `MarkdownRenderer.RenderConcat` | components/MarkdownRenderer.tsx:11-15 | rendering `a + "\n" + b` renders `a`, then `b`: no line looks at its neighbours |
| `MarkdownRenderer.RenderCount` | components/MarkdownRenderer.tsx:11 | there is one block per line feed, plus one |
| `MarkdownRenderer.RenderLines` | components/MarkdownRenderer.tsx:11-22 | lines joined by line feeds render as one block per line, in the same order, each block that line's classification |
| `MarkdownRenderer.RenderLine` | components/MarkdownRenderer.tsx:11-15 | a text without a line feed renders as exactly one block |
| `MarkdownRenderer.HeadingExample` | components/MarkdownRenderer.tsx:18 | `# title`, for any one-line title, renders as one level-1 heading `title` |
| `MarkdownRenderer.BulletExample` | components/MarkdownRenderer.tsx:20 | `- item`, for any one-line item, renders as one bullet `item` |
| `MarkdownRenderer.NumberedExample` | components/MarkdownRenderer.tsx:19 | `n. step` renders as one numbered item, number `n` and body `trim(step)` |
| `MarkdownRenderer.EmptyExample` | components/MarkdownRenderer.tsx:11-22 | an empty line is an empty paragraph, and the empty text renders as one |
| `JsString.ReplaceFirst` | components/MarkdownRenderer.tsx:16-18 | `replace` with a string pattern; its contract is carried by `ReplaceFirstSpec` |
| `JsString.ReplaceFirstSpec` | components/MarkdownRenderer.tsx:16-18 | replacing a prefix removes exactly that prefix; a string without the pattern is unchanged |
| `JsString.RemoveAll` | components/MarkdownRenderer.tsx:21 | `` replace(/`/g, '') ``; its contract is carried by `RemoveAllSingle`, `RemoveAllConcat` and `RemoveAllSpec`, which together fix it as dropping each backtick and keeping every other character in order |
| `JsString.RemoveAllSingle` | components/MarkdownRenderer.tsx:21 | one character is dropped when it is the backtick and kept otherwise |
| `JsString.RemoveAllSpec` | components/MarkdownRenderer.tsx:21 | the result holds no backtick; a string without one is unchanged |
| `JsString.RemoveAllConcat` | components/MarkdownRenderer.tsx:21 | removing backticks from a concatenation removes them from each part, keeping the order |
| `JsString.Substring` | components/MarkdownRenderer.tsx:20 | `substring(start)`; its contract is carried by `SubstringSpec` |
| `JsString.SubstringSpec` | components/MarkdownRenderer.tsx:20 | the first `start` characters followed by the result give back the string |
| `JsString.Split` | components/MarkdownRenderer.tsx:11 | `split` with a one-character separator, always at least one piece; the rest of its contract is carried by `SplitPieces`, `SplitCount`, `SplitConcat`, `SplitFirstField` and the round trips `JoinSplit` and `SplitJoin` |
| `JsString.Join` | components/MarkdownRenderer.tsx:19 | `join` with a one-character separator; its contract is carried by `JoinSplit` and `SplitJoin` |
| `JsString.SplitPieces` | components/MarkdownRenderer.tsx:11 | no piece of a split contains the separator |
| `JsString.JoinSplit` | components/MarkdownRenderer.tsx:19 | joining a split with its separator gives back the string |
| `JsString.SplitJoin` | components/MarkdownRenderer.tsx:11 | splitting a join of separator-free parts gives back the parts |
| `JsString.SplitConcat` | components/MarkdownRenderer.tsx:11 | splitting at one separator splits each side independently |
| `JsString.SplitFirstField` | components/MarkdownRenderer.tsx:19 | the first piece is what precedes the first separator; the other pieces rejoin to what follows it |
| `JsString.SplitCount` | components/MarkdownRenderer.tsx:11 | a split has one more piece than the string has separators |
| `JsString.Trim` | components/MarkdownRenderer.tsx:19 | `trim()`; its contract is carried by `TrimStartSpec`, `TrimEndSpec`, `TrimEdges`, `TrimParts` and `TrimEmpty` |
| `JsString.TrimStartSpec` | components/MarkdownRenderer.tsx:19 | trimming the start drops a white-space prefix and leaves a string that does not start with white space |
| `JsString.TrimEndSpec` | components/MarkdownRenderer.tsx:19 | trimming the end drops a white-space suffix and leaves a string that does not end with white space |
| `JsString.TrimEdges` | components/MarkdownRenderer.tsx:19 | a trimmed string neither starts nor ends with white space |
| `JsString.TrimParts` | components/MarkdownRenderer.tsx:19 | the string is white space, then its trimmed text, then white space |
| `JsString.TrimEmpty` | App.tsx:51 | trimming leaves nothing exactly when the string is all white space |
| `JsString.DigitRunSpec` | components/MarkdownRenderer.tsx:19 | the leading run is all digits, and the next character, if any, is not a digit |
| `JsArray.Filter` | App.tsx:155 | `filter`; its contract is carried by `FilterSpec`, `FilterAll` and `FilterConcat` |
| `JsArray.FilterSpec` | App.tsx:155 | every kept element satisfies the test and comes from the input; no element that satisfies it is lost |
| `JsArray.FilterAll` | App.tsx:155 | a sequence whose every element passes the test is its own filter |
| `JsArray.FilterConcat` | App.tsx:155 | filtering a concatenation filters each part: kept elements keep their order |
| `JsArray.SliceLast` | components/TerminalOutput.tsx:15 | `slice(-n)` gives the last `min(n, length)` elements, a suffix of the input |
| `TerminalOutput.NextLogs` | components/TerminalOutput.tsx:13-18 | the update rule for the buffer; its contract is carried by `AppendRule`, `ClearRule`, `EmptyStatusRule` and `FullBufferSlides` |
| `TerminalOutput.AppendRule` | components/TerminalOutput.tsx:14-15 | when active with a non-empty status, the new buffer ends with `"> " + status`, preceded by the last `min(10, old length)` old lines as a suffix of the old buffer; it holds at most 11 lines |
| `TerminalOutput.ClearRule` | components/TerminalOutput.tsx:16-17 | when inactive, the buffer becomes empty whatever the status |
| `TerminalOutput.EmptyStatusRule` | components/TerminalOutput.tsx:14-18 | when active with an empty status, the buffer is unchanged |
| `TerminalOutput.FullBufferSlides` | components/TerminalOutput.tsx:15 | a buffer of 11 lines stays at 11, dropping its oldest line |
| `TerminalOutput.View` | components/TerminalOutput.tsx:27-43 | nothing is drawn exactly when inactive with an empty buffer; otherwise the buffer's lines are drawn, and the cursor is shown exactly when active |
| `TerminalOutput.Console.constructor` | components/TerminalOutput.tsx:10-19 | on first appearance the buffer starts empty and the update rule runs once |
| `TerminalOutput.Console.Receive` | components/TerminalOutput.tsx:13-19 | the update rule runs exactly when status or activity changed; the buffer stays bounded by 11 and empty while inactive |
| `TerminalOutput.Console.Render` | components/TerminalOutput.tsx:27 | in a reachable state the console draws nothing exactly when it is inactive |
| `Types.Category.Name` | types.ts:2 | every domain has a non-empty name |
| `GeminiService.NewService` | services/geminiService.ts:10-15 | a client exists exactly when the key is present and non-empty; otherwise construction fails with `API_KEY is not defined` |
| `GeminiService.Expertise` | services/geminiService.ts:46 | the instruction names the given domain when it is non-empty, else `general tech` |
| `GeminiService.ImagePayload` | services/geminiService.ts:35 | the image data is present exactly when the image string has a comma, and it holds no comma |
| `GeminiService.DataUriPayload` | services/geminiService.ts:35 | for `header,payload` the data is the payload |
| `GeminiService.HistoryTurn` | services/geminiService.ts:24-27 | one history message as a turn; its contract is the per-turn clause of `RequestFor` that `BuildRequest` establishes |
| `GeminiService.RequestFor` | services/geminiService.ts:24-40 | the element-wise request specification; `RequestForUnique` shows it determines the request, and `BuildRequest` meets it |
| `GeminiService.RequestForUnique` | services/geminiService.ts:24-40 | the request specification determines the request: any two requests that meet it are equal |
| `GeminiService.BuildRequest` | services/geminiService.ts:24-40 | `|history| + 1` turns; turn i has role `user` for user messages, else `model`, and the message text as its only part; the last turn is `user`, its first part the new text, with a second `image/jpeg` part carrying the image's second comma field exactly when an image is given |
| `GeminiService.ReplyText` | services/geminiService.ts:59 | an empty or missing response text becomes the fixed apology; any other text is kept unchanged |
| `GeminiService.Citations` | services/geminiService.ts:60 | the citation list of a response; its contract is carried by `CitationsChain` |
| `GeminiService.CitationsChain` | services/geminiService.ts:60 | the citations are the first candidate's grounding chunks; without candidates, metadata or chunks there are none |
| `GeminiService.Normalise` | services/geminiService.ts:59-66 | a thrown error is passed on unchanged; a response gives a reply whose text is never empty |
| `GeminiService.Troubleshoot` | services/geminiService.ts:17-67 | the transport is called once, with the request the specification prescribes, and its outcome is normalised |
| `App.CanSend` | App.tsx:51 | the send guard; its contract is carried by `CanSendIff` |
| `App.CanSendIff` | App.tsx:51 | the guard accepts exactly when trimming the input leaves text or there is an image |
| `App.Attachment` | App.tsx:59 | an image is attached exactly when it is non-empty |
| `App.UserMessage` | App.tsx:54-60 | the user message has role user, holds the input untrimmed and the pending image, and has no citations |
| `App.ReplyMessage` | App.tsx:94-110 | the assistant message holds the reply's text and citations on success, and the fixed error text with no citations on failure |
| `App.ScheduledUpdate` | App.tsx:77-84 | update i writes status text i and progress `(i+1)*20`, within 20..100, keeping the analyzing flag |
| `App.ScheduledProgressRises` | App.tsx:77-84 | later updates write more progress; the fifth writes 100 |
| `App.LateUpdateStaysIdle` | App.tsx:77-85 | an update that fires after the turn has returned to idle leaves the indicator not analyzing |
| `App.SidebarLabel` | App.tsx:157 | a message is listed by its text, or as `Image Scan` when that is empty |
| `App.RecentUserLabels` | App.tsx:155-157 | the sidebar lists at most five labels |
| `App.RecentUserLabelsCount` | App.tsx:155-157 | it lists `min(5, n)` labels for n user messages: label i is that of user message `n - min(5, n) + i`, so the last five in conversation order, and all of them when there are at most five |
| `App.SidebarAfterTurn` | App.tsx:155-157 | after a turn, the sidebar's last label is the new user message's |
| `App.UserFilterAfterTurn` | App.tsx:155 | the user messages after a turn are those before it, then the new one |
| `App.SidebarIgnoresAssistant` | App.tsx:155 | appending an assistant message leaves the sidebar's list unchanged |
| `App.Sidebar` | App.tsx:151-161 | the placeholder is shown exactly when the conversation is empty |
| `App.WebSources` | App.tsx:245-246 | every drawn citation is the `web` part of one of the links, and every link with a `web` part is drawn |
| `App.WebSourcesSingle` | App.tsx:245-246 | one citation draws its `web` part when it has one, and nothing otherwise |
| `App.WebSourcesConcat` | App.tsx:245-246 | the citations of a concatenation are drawn part by part, in order: with `WebSourcesSingle` this fixes the drawn list as one link per citation with a `web` part, in citation order |
| `App.CitationPanel` | App.tsx:241-246 | the citation panel is shown exactly when the message has a non-empty link list |
| `App.ErrorHasNoCitations` | App.tsx:103-110 | the fixed error message shows no citation panel |
| `App.ChatApp.constructor` | App.tsx:16-25 | the app starts with an empty conversation, no input or image, the hardware domain, and idle progress |
| `App.ChatApp.HandleSend` | App.tsx:50-114 | a refused turn changes nothing. Otherwise: the user message is appended; input and image are cleared; the indicator is analyzing while the call is out; the client gets the pre-turn history, the typed text and the image; exactly one assistant message follows; the indicator ends idle |
| `App.ChatApp.FireStatusUpdate` | App.tsx:78-84 | one scheduled update changes only the indicator, as `ScheduledUpdate` says |
| `App.ChatApp.ClearConsole` | App.tsx:192 | the conversation is emptied and nothing else changes |

## Left out

- Rendering: JSX, CSS classes, SVG and layout. These are presentation only.
- The remote call (`generateContent`), its thinking budget and its search
  tool. The call is a transport oracle, a function from the request to the
  outcome. The request records the model name and the domain named in the
  system instruction, not the rest of the instruction text or the tool
  settings.
- The `process.env.API_KEY` lookup. The key is a parameter of
  `GeminiService.NewService`. The client is built in an effect when the app
  first appears (App.tsx:31-33). A missing key makes that constructor throw,
  and nothing there catches the error, so there is no lasting app state
  without a client. The model's `App.ChatApp` is constructed with the result
  of `NewService`; the no-client refusal at App.tsx:52 covers only the moment
  before the effect has run.
- Image upload through `FileReader`. This is browser I/O; the data URI
  arrives as the `image` field.
- Timing of the five scheduled status updates. They are timers racing the
  network call, and they are not cancelled. The model has each update as its
  own event (`FireStatusUpdate`), which may come after the turn has ended.
  An update that fires while the call is out is overwritten when the turn
  ends, so `HandleSend` treats the call as one atomic step.
- Events interleaved with an outstanding call, such as "Clear Console" or a
  second Enter press. `HandleSend` is atomic in the model, so the functional
  `setMessages` updates that would then act on a newer conversation are not
  modelled.
- Auto-scrolling effects and `useRef` plumbing. These are DOM side effects.
- `Date.now()` ids and timestamps. They are inputs (`TurnClock`).
- Console logging of the caught error.
- The controlled text area, the domain buttons, the sidebar toggle and the
  remove-image button. Each only sets one field; the class's fields stand
  for them.
- The first render of the console after a change of inputs. React draws it
  with the old buffer before the update rule runs. `TerminalOutput.Console`
  applies the new inputs and the rule together.
- Strings are sequences of Unicode characters. JavaScript counts UTF-16 code
  units, so `substring(2)` and string lengths differ for characters outside
  the Basic Multilingual Plane.

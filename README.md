# Chat assistant of HenriqueCassisDev.com, modelled in Dafny

The chat widget of `script.js` is a small state machine over two page globals:
`conversationState` (the step of the conversation) and `userName`. Each submitted
text is trimmed, echoed, and handed to the handler of the current state. The
handler classifies it with an ordered chain of case-insensitive `includes`
tests, shows texts, links and a row of buttons, and reassigns the state. The
name step is the odd one out: it pulls a name out of the message with regular
expressions and title-cases it. A one-minute inactivity timer marks the
conversation `inactive`. The next text in an inactive or finished conversation
is answered with a welcome back and the main menu.

The project has six modules, one file each.

- `text.dfy`, module `Text`: the string primitives the widget uses.
  - `trim` and the `\s` class.
  - `toLowerCase`/`toUpperCase`, approximated on ASCII and Latin-1.
  - `includes`, the UTF-16 `length`, and the `\d` test.
- `names.dfy`, module `Names`: the name extraction of `handleNameResponse`.
  - The two capture patterns and the clean-up pattern, written out as functions that follow JavaScript's backtracking order.
  - The loop that tries the patterns in order.
  - Title-casing, and the validity test.
- `keywords.dfy`, module `Keywords`: the keyword chains of the five menu states.
  - Each chain is a function to an intent datatype, so the order of the tests is the order of the `if`s.
  - The captions of every row of buttons.
  - Proofs that each caption reaches its own branch.
- `dialogue.dfy`, module `Dialogue`: the conversation as pure functions from a `Session` (state and name) and an input to a `Reply` (the next session and the ordered list of `Action`s shown).
  - There is one function per handler of the source.
  - `SendMessage` is one submitted text; `Timeout` is the timer's callback; `Step` and `Run` fold over a sequence of such events.
- `properties.dfy`, module `DialogueProperties`: what the conversation guarantees, proved about those functions.
- `chatbot.dfy`, module `Widget`: the widget as a class `ChatBot` with the fields `state`, `userName` and `transcript`.
  - Each function of the source that assigns the globals or appends to the chat is a method.
  - Each such method is proved to leave exactly the session and the transcript the matching `Dialogue` function describes.
  - `BotRespond` and `ShowOptions` are the loops of `botRespond` and `showOptions`; `DetectNameLoop` is the pattern loop of `handleNameResponse`.

Some texts and links are represented indirectly:

- The assistant's messages are values of the datatype `Phrase`. A phrase that names the visitor, a service or a question carries it, and `Dialogue.Wording` spells out each one in Portuguese, exactly as the source has it.
- The links are `Site` values, with `Caption` and `Href` giving their text and address.
- The transcript is a list of these values rather than of HTML strings.

Three behaviours of the code that its menus do not suggest:

- Unrecognised input in `finalQuestion`, `contactOptions` and `faqMenu` goes to the main menu rather than re-prompting the current menu. Only the service step re-shows its own buttons (`script.js:338-343`).
- "Voltar ao menu principal" in `finalQuestion` ends the conversation, because it is tested together with "não" (`script.js:319`).
- The phone link shows `+55 19 99999-9999` but dials `tel:+5519996432877` (`script.js:395-396`).

## Model

| member | source | states |
|---|---|---|
| Text.ToLower | script.js:161 | keeps the length; no further contract, see ToLowerIdempotent |
| Text.Contains | script.js:223 | no contract; the keyword tests `includes` are characterised by the Keywords lemmas, e.g. MenuUnknownIff |
| Text.Utf16Length | script.js:194 | counts at least one and at most two code units per character; see Utf16LengthOfBmp |
| Text.HasDigit | script.js:194 | no contract; see NameRejectedIffShort |
| Text.Trim | script.js:120 | the result is the input with a whitespace-only prefix and suffix cut off, and has no whitespace at either end; it is empty exactly when the input is all whitespace, and an already trimmed input is returned unchanged |
| Text.ToLowerIdempotent | script.js:161 | lower-casing twice equals lower-casing once |
| Text.Utf16LengthOfBmp | script.js:194 | `length` counts characters exactly when no character lies outside the Basic Multilingual Plane |
| Names.GreetingMatch | script.js:167 | a match is non-empty name-class text; see GreetingMatchFound and GreetingMatchAt |
| Names.WholeMatch | script.js:169 | a match is non-empty name-class text; see WholePatternIsDead |
| Names.CleanupMatch | script.js:177 | a match is non-empty name-class text; see Refine |
| Names.TitleCase | script.js:187-190 | no contract; see TitleCaseCapitalizes, TitleCaseLength and TitleCaseIdempotent |
| Names.ExtractName | script.js:159-190 | no contract; see ExtractedNameShape and JoaoExtracted |
| Names.NameRejected | script.js:194 | no contract; see NameRejectedIffShort |
| Names.AfterPrefix | script.js:167 | after the optional prefix of the first pattern, a capture is found exactly when a name-class character follows, or a punctuation mark and then one; the capture is non-empty name-class text |
| Names.GreetingMatchFound | script.js:167 | the unanchored first pattern matches exactly when the message holds some name-class character |
| Names.GreetingMatchAt | script.js:167 | the match of the first pattern is the attempt at the first name-class character |
| Names.WholePatternIsDead | script.js:169-185 | whenever the second pattern would match, the first already has, so the loop gives what the first pattern alone gives |
| Names.DetectName | script.js:172-185 | the detected text is trimmed and consists only of name-class characters |
| Names.Refine | script.js:176-182 | the cleaned capture is trimmed and stays within the name class |
| Names.JoinSplit | script.js:187-189 | joining the split of a string with the same separator gives the string back |
| Names.TitleCaseCapitalizes | script.js:187-189 | title-casing a trimmed text upper-cases each word start and lower-cases every other character |
| Names.TitleCaseLength | script.js:187-189 | title-casing keeps the length of a trimmed text |
| Names.TitleCaseIdempotent | script.js:187-189 | title-casing a trimmed text twice equals title-casing it once |
| Names.ExtractedNameShape | script.js:161-190 | the extracted name is trimmed, a capitalization of the detected text, holds no digit, has a UTF-16 length equal to its character count, and is a fixed point of title-casing |
| Names.NameRejectedIffShort | script.js:194 | the name is rejected exactly when it is shorter than two characters: the digit test never fires |
| Names.JoaoExtracted | script.js:159-190 | "meu nome é joão" yields the name "João" |
| Widget.DetectNameLoop | script.js:172-185 | the loop over the two patterns returns the detection `Names.DetectName` |
| Widget.ReadName | script.js:160-190 | the name read from a message is the title-cased detection `Names.ExtractName` |
| Keywords.ClassifyMenu | script.js:221-250 | no contract; see MenuUnknownIff and MainMenuCaptionsRoute |
| Keywords.MenuUnknownIff | script.js:221-250 | the main-menu chain falls through to its not-understood branch exactly when no main-menu keyword occurs |
| Keywords.ClassifyInterest | script.js:253-278 | no contract; see InterestUnknownIff and InterestCaptionsRoute |
| Keywords.InterestUnknownIff | script.js:253-275 | the service chain falls through exactly when no service keyword occurs |
| Keywords.ClassifyFinal | script.js:301-327 | no contract; see FinalUnknownIff, PortfolioFollowUpRoute, YesNoRoute and FaqFollowUpRoute |
| Keywords.FinalUnknownIff | script.js:301-327 | the closing-question chain falls through exactly when none of its keywords occurs |
| Keywords.ClassifyChannel | script.js:367-428 | no contract; see ChannelUnknownIff and ContactCaptionsRoute |
| Keywords.ChannelUnknownIff | script.js:367-428 | the contact chain falls through exactly when no channel keyword occurs |
| Keywords.ClassifyFaq | script.js:441-458 | no contract; see FaqUnknownIff and FaqCaptionsRoute |
| Keywords.FaqUnknownIff | script.js:441-458 | the FAQ chain falls through exactly when no question keyword occurs |
| Keywords.MainMenuCaptionsRoute | script.js:216-247 | each of the seven main-menu captions, lower-cased, reaches the branch it names, though the first test that matches decides |
| Keywords.InterestCaptionsRoute | script.js:225-272 | each of the five service captions reaches its service, and the last one the way back |
| Keywords.ContactCaptionsRoute | script.js:362-426 | each of the six contact captions reaches its channel, and the last one the way back |
| Keywords.FaqCaptionsRoute | script.js:436-455 | each of the five FAQ captions reaches its answer, and the last one the way back |
| Keywords.PortfolioFollowUpRoute | script.js:297-319 | "Falar no WhatsApp" reaches the WhatsApp branch and "Voltar ao menu principal" the goodbye branch |
| Keywords.YesNoRoute | script.js:313-319 | "Sim" reaches the main-menu branch and "Não" the goodbye branch |
| Keywords.FaqFollowUpRoute | script.js:461 | of the buttons after an answer, "Sim" reaches the main-menu branch, and "Não" and "Voltar ao menu principal" the goodbye branch |
| Keywords.MainMenuPressable | script.js:216 | every main-menu caption is non-empty and trimmed, so pressing it submits it unchanged |
| Keywords.InterestPressable | script.js:225 | every service caption is non-empty and trimmed |
| Keywords.ContactPressable | script.js:362 | every contact caption is non-empty and trimmed |
| Keywords.FaqPressable | script.js:436 | every FAQ caption is non-empty and trimmed |
| Keywords.PortfolioFollowUpPressable | script.js:297 | both captions after a portfolio are non-empty and trimmed |
| Keywords.YesNoPressable | script.js:313 | "Sim" and "Não" are non-empty and trimmed |
| Keywords.FaqFollowUpPressable | script.js:461 | the captions after an answer are non-empty and trimmed |
| Dialogue.OrDefault | script.js:57-59 | no contract; see Respond |
| Dialogue.Shown | script.js:56-59 | no contract; see Respond |
| Dialogue.Respond | script.js:54-61 | `botRespond` shows one text per message |
| Dialogue.RespondAppend | script.js:54-61 | two `botRespond` calls in a row show what one call with both lists shows |
| Dialogue.Options | script.js:64-86 | no contract; see Widget.ChatBot.ShowOptions and OfferedButtonsRecognised |
| Dialogue.ShowMainMenu | script.js:211-219 | the main menu keeps the name and moves to `mainMenu`; it shows the "how can I help" text addressed to the visitor, then the row of the seven main-menu buttons |
| Dialogue.HandleNameResponse | script.js:159-209 | a row of buttons, if shown, is the last entry and fits the state left; the outcome itself is stated by NameStepOutcome and NameStep |
| Dialogue.RejectName | script.js:193-199 | a rejected name leaves the session as it was |
| Dialogue.WelcomeName | script.js:202-208 | an accepted name is stored and the conversation moves to `mainMenu` |
| Dialogue.HandleMainMenuChoice | script.js:221-250 | a main-menu choice keeps the name and stays or moves to a state other than `askName`, `blog` and `inactive`; its buttons are those of that state |
| Dialogue.ShowServices | script.js:223-227 | the services branch moves to `askInterest`, keeping the name |
| Dialogue.AskForFeedback | script.js:236-241 | the feedback branch moves to `feedback`, keeping the name |
| Dialogue.Goodbye | script.js:242-247 | the goodbye keeps the name and ends the conversation |
| Dialogue.HandleInterestResponse | script.js:253-299 | a service answer keeps the name and moves only to a state other than `askName`, `blog` and `inactive`; its buttons are those of that state |
| Dialogue.ShowPortfolio | script.js:257-298 | a chosen service moves to `finalQuestion`, keeping the name |
| Dialogue.HandleFinalResponse | script.js:301-328 | an answer to the closing question keeps the name and moves only to a state other than `askName`, `blog` and `inactive` |
| Dialogue.ShowNotUnderstood | script.js:330-344 | the generic fallback stays in `askInterest` when a service is being chosen and otherwise moves to `mainMenu`, keeping the name |
| Dialogue.ShowNotUnderstoodMainMenu | script.js:346-355 | the main-menu fallback moves to `mainMenu`, keeping the name |
| Dialogue.ShowContactOptions | script.js:357-365 | the contact list moves to `contactOptions`, keeping the name |
| Dialogue.HandleContactOption | script.js:367-429 | a contact choice keeps the name and moves only to a state other than `askName`, `blog` and `inactive` |
| Dialogue.ToYesNo | script.js:377-379 | closing a branch with the yes/no buttons moves to `finalQuestion`, keeping the name |
| Dialogue.ShareChannel | script.js:369-423 | every contact channel moves to `finalQuestion`, keeping the name |
| Dialogue.ShowFaqMenu | script.js:431-439 | the FAQ list moves to `faqMenu`, keeping the name |
| Dialogue.ShowFaqAnswer | script.js:458-462 | an answered question moves to `finalQuestion`, keeping the name |
| Dialogue.HandleFaqChoice | script.js:441-463 | a FAQ choice keeps the name and moves only to a state other than `askName`, `blog` and `inactive` |
| Dialogue.ShowSchedulingOption | script.js:465-480 | the scheduling link moves to `finalQuestion`, keeping the name |
| Dialogue.HandleFeedbackInput | script.js:482-496 | feedback shorter than ten UTF-16 units keeps the session; longer feedback moves to `mainMenu`, keeping the name |
| Dialogue.ShowBlogMenu | script.js:498-513 | the blog link moves to `finalQuestion`, keeping the name |
| Dialogue.WelcomeBack | script.js:127-135 | the welcome back moves to `mainMenu`, keeping the name |
| Dialogue.Dispatch | script.js:137-155 | a row of buttons is only ever the last entry of a reply, and it offers the buttons of the state the reply leaves |
| Dialogue.SendMessage | script.js:119-156 | a row of buttons is only ever the last entry of a reply, and it offers the buttons of the state the reply leaves |
| Dialogue.Timeout | script.js:91-99 | the timer keeps the name; a finished conversation is left untouched with nothing shown, and any other becomes `inactive` with one text |
| Dialogue.Step | script.js:91-156 | no contract; see StepKeepsReachable and SubmitKeepsName |
| Dialogue.Run | script.js:91-156 | no contract; see RunKeepsReachable, NameFixedAfterAskName and RunTwo |
| DialogueProperties.EmptyInputIsNoOp | script.js:120-121 | input that trims to nothing shows nothing and leaves the session unchanged; any other input shows something |
| DialogueProperties.EchoesThenDispatches | script.js:119-156 | other input is echoed trimmed, then handled by the current state's handler |
| DialogueProperties.DispatchKeepsName | script.js:137-155 | outside the name step a handler keeps the name and never moves to `askName`, `blog` or `inactive` |
| DialogueProperties.NameStepOutcome | script.js:193-208 | the name step keeps the session for a name shorter than two, and otherwise stores the well-formed name and moves to `mainMenu` |
| DialogueProperties.InitialReachable | script.js:6-7 | the page starts in a reachable session: not `blog`, no name, nothing ill-formed |
| DialogueProperties.StepKeepsReachable | script.js:91-155 | every event keeps the conversation out of `blog`, with no name stored while the name is asked for, and a stored name well formed |
| DialogueProperties.RunKeepsReachable | script.js:91-155 | the same holds after any sequence of events |
| DialogueProperties.BlogNeverReached | script.js:153-155 | `blog` is never reached, so the missing `handleBlogChoice` is never called |
| DialogueProperties.NameChangesOnlyWhenAsked | script.js:202 | only a submission in `askName` changes the name, and no event re-enters `askName` from elsewhere |
| DialogueProperties.SubmitKeepsName | script.js:119-156 | outside the name step a submission keeps the name and does not return to `askName` |
| DialogueProperties.NameFixedAfterAskName | script.js:202 | once the name step is left, no sequence of events changes the name |
| DialogueProperties.NameWrittenOnce | script.js:202 | a stored name is never overwritten |
| DialogueProperties.SubmitKeepsNamed | script.js:119-209 | a submission takes a reachable, non-`inactive` session whose name is stored once the name step is past to another such session |
| DialogueProperties.RunWithoutIdleNamed | script.js:119-209 | the same holds along any sequence of submissions |
| DialogueProperties.NamedWithoutIdle | script.js:193-202 | without the timer, every state past the name step has a name of at least two characters |
| DialogueProperties.IdleSkipsName | script.js:91-99 | with the timer, a visitor who never gives a name reaches `mainMenu` with no name stored |
| DialogueProperties.RunTwo | script.js:119-156 | two events update the session one after the other |
| DialogueProperties.NameStep | script.js:159-209 | from the start a submission stays in `askName` exactly when the extracted name is shorter than two, and otherwise stores it and moves to `mainMenu` |
| DialogueProperties.JoaoGreeted | script.js:159-209 | "meu nome é joão" stores "João" and moves to `mainMenu` |
| DialogueProperties.FeedbackThreshold | script.js:482-496 | trimmed feedback under ten UTF-16 units is echoed, answered by the one request for more detail, and keeps `feedback`; otherwise the conversation moves to `mainMenu`, keeping the name |
| DialogueProperties.FeedbackHandled | script.js:483-495 | a feedback message under ten UTF-16 units shows exactly the request for more detail and keeps `feedback`; a longer one shows the acknowledgement and the main menu and moves to `mainMenu` |
| DialogueProperties.FeedbackExamples | script.js:483 | "too short" (nine units) is sent back and "just right" (ten) accepted |
| DialogueProperties.ReturnShowsWelcomeAndMenu | script.js:127-135 | in `inactive` or `endConversationConfirmed` any message shows the welcome back, the main-menu question and its seven buttons, and moves to `mainMenu` |
| DialogueProperties.TimeoutOutcome | script.js:91-99 | the timer marks every conversation `inactive` with one text, except a finished one, which it leaves untouched; the name never changes |
| DialogueProperties.UnrecognisedInput | script.js:330-355 | a message with no keyword of its menu state stays in `askInterest` while a service is being chosen and otherwise moves to `mainMenu`, keeping the name |
| DialogueProperties.UnrecognisedMessage | script.js:330-355 | the same for the handler on its own, without the echo |
| DialogueProperties.UnrecognisedInterest | script.js:330-340 | an unrecognised service answer shows the apology, the question and the five service buttons |
| DialogueProperties.UnrecognisedMenuChoice | script.js:346-355 | an unrecognised main-menu choice shows the apology and the main menu |
| DialogueProperties.FittingButtonsRecognised | script.js:216-461 | every caption of a row that fits a state is understood by that state's handler |
| DialogueProperties.OfferedButtonsRecognised | script.js:64-86 | a reply shows at most one row of buttons, as its last entry, and every button it offers is understood in the state the reply leaves |
| DialogueProperties.MenuStep | script.js:221-250 | a main-menu choice moves as the transition table says |
| DialogueProperties.InterestStep | script.js:253-299 | a service answer moves as the transition table says |
| DialogueProperties.FinalStep | script.js:301-328 | an answer to the closing question moves as the transition table says |
| DialogueProperties.ChannelStep | script.js:367-429 | a contact choice moves as the transition table says |
| DialogueProperties.FaqStep | script.js:441-463 | a FAQ choice moves as the transition table says |
| DialogueProperties.MenuTransition | script.js:137-155 | in every menu state a message moves the conversation as the transition table `Target` says, keeping the name |
| DialogueProperties.PressCaption | script.js:120 | a trimmed, non-empty caption is submitted unchanged |
| DialogueProperties.Press | script.js:76-79 | pressing a button submits its caption and follows the transition table |
| DialogueProperties.MenuTargets | script.js:221-247 | the table sends each main-menu intent to its state |
| DialogueProperties.InterestTargets | script.js:253-298 | the table sends each service to `finalQuestion` and the way back to `mainMenu` |
| DialogueProperties.ChannelTargets | script.js:367-426 | the table sends each channel to `finalQuestion` and the way back to `mainMenu` |
| DialogueProperties.FaqTargets | script.js:441-462 | the table sends each question to `finalQuestion` and the way back to `mainMenu` |
| DialogueProperties.FinalTargets | script.js:301-325 | the table sends WhatsApp to `finalQuestion`, yes to `mainMenu` and no to `endConversationConfirmed` |
| DialogueProperties.PressMenu | script.js:221-250 | pressing a main-menu caption with an intent follows that intent |
| DialogueProperties.PressInterest | script.js:253-299 | pressing a service caption follows its service |
| DialogueProperties.PressFinal | script.js:301-328 | pressing a closing-question caption follows its answer |
| DialogueProperties.PressChannel | script.js:367-429 | pressing a contact caption follows its channel |
| DialogueProperties.PressFaq | script.js:441-463 | pressing a FAQ caption follows its question |
| DialogueProperties.MainMenuButtons | script.js:216-247 | where each main-menu button leads |
| DialogueProperties.InterestButtons | script.js:225-298 | each service button leads to `finalQuestion`, and the last one to `mainMenu` |
| DialogueProperties.ContactButtons | script.js:362-426 | each channel button leads to `finalQuestion`, and the last one to `mainMenu` |
| DialogueProperties.FaqButtons | script.js:436-462 | each question button leads to `finalQuestion`, and the last one to `mainMenu` |
| DialogueProperties.PortfolioFollowUpButtons | script.js:297-325 | after a portfolio, WhatsApp keeps `finalQuestion` and "Voltar ao menu principal" ends the conversation |
| DialogueProperties.YesNoButtons | script.js:313-325 | "Sim" leads to `mainMenu` and "Não" ends the conversation |
| DialogueProperties.FaqFollowUpButtons | script.js:461-462 | after an answer, "Sim" leads to `mainMenu`; "Não" and "Voltar ao menu principal" end the conversation |
| DialogueProperties.ServicesExample | script.js:223-227 | the caption "Serviços" shows the introduction, the question and the five service buttons |
| DialogueProperties.WebsiteExample | script.js:257-298 | the caption "Website" shows the website portfolio link and moves to `finalQuestion` |
| DialogueProperties.ServiceChosen | script.js:253-298 | naming any service shows that service's portfolio link and moves to `finalQuestion` |
| DialogueProperties.PortfolioShowsLink | script.js:281-287 | the portfolio link of the chosen service comes right after the two texts, and the conversation moves to `finalQuestion` |
| Widget.ChatBot.constructor | script.js:6-7 | the page starts asking for the name, with the greeting shown |
| Widget.ChatBot.AddUserMessage | script.js:24-30 | the visitor's text is appended to the chat, and nothing else changes |
| Widget.ChatBot.AddBotMessage | script.js:11-22 | a text is appended without the typing indicator, and nothing else changes |
| Widget.ChatBot.AddLink | script.js:281-287 | a link is appended, and nothing else changes |
| Widget.ChatBot.BotRespond | script.js:54-61 | the loop appends each message with its delays defaulted, and changes nothing else |
| Widget.ChatBot.ShowOptions | script.js:64-86 | the question, if any, then one row of buttons is appended |
| Widget.ChatBot.ShowMainMenu | script.js:211-219 | the session and transcript become those of `Dialogue.ShowMainMenu` |
| Widget.ChatBot.HandleNameResponse | script.js:159-209 | the session and transcript become those of `Dialogue.HandleNameResponse` |
| Widget.ChatBot.RejectName | script.js:193-199 | the session and transcript become those of `Dialogue.RejectName` |
| Widget.ChatBot.WelcomeName | script.js:202-208 | the session and transcript become those of `Dialogue.WelcomeName` |
| Widget.ChatBot.HandleMainMenuChoice | script.js:221-250 | the session and transcript become those of `Dialogue.HandleMainMenuChoice` |
| Widget.ChatBot.ShowServices | script.js:223-227 | the session and transcript become those of `Dialogue.ShowServices` |
| Widget.ChatBot.AskForFeedback | script.js:236-241 | the session and transcript become those of `Dialogue.AskForFeedback` |
| Widget.ChatBot.Goodbye | script.js:242-247 | the session and transcript become those of `Dialogue.Goodbye` |
| Widget.ChatBot.HandleInterestResponse | script.js:253-299 | the session and transcript become those of `Dialogue.HandleInterestResponse` |
| Widget.ChatBot.ShowPortfolio | script.js:276-298 | the session and transcript become those of `Dialogue.ShowPortfolio` |
| Widget.ChatBot.HandleFinalResponse | script.js:301-328 | the session and transcript become those of `Dialogue.HandleFinalResponse` |
| Widget.ChatBot.ShowNotUnderstood | script.js:330-344 | the session and transcript become those of `Dialogue.ShowNotUnderstood` |
| Widget.ChatBot.ShowNotUnderstoodMainMenu | script.js:346-355 | the session and transcript become those of `Dialogue.ShowNotUnderstoodMainMenu` |
| Widget.ChatBot.ShowContactOptions | script.js:357-365 | the session and transcript become those of `Dialogue.ShowContactOptions` |
| Widget.ChatBot.AskAnythingElse | script.js:377-379 | the question and the yes/no buttons are appended and the state becomes `finalQuestion` |
| Widget.ChatBot.HandleContactOption | script.js:367-429 | the session and transcript become those of `Dialogue.HandleContactOption` |
| Widget.ChatBot.ShareChannel | script.js:369-423 | the session and transcript become those of `Dialogue.ShareChannel` |
| Widget.ChatBot.ShowFaqMenu | script.js:431-439 | the session and transcript become those of `Dialogue.ShowFaqMenu` |
| Widget.ChatBot.HandleFaqChoice | script.js:441-463 | the session and transcript become those of `Dialogue.HandleFaqChoice` |
| Widget.ChatBot.ShowSchedulingOption | script.js:465-480 | the session and transcript become those of `Dialogue.ShowSchedulingOption` |
| Widget.ChatBot.HandleFeedbackInput | script.js:482-496 | the session and transcript become those of `Dialogue.HandleFeedbackInput` |
| Widget.ChatBot.ShowBlogMenu | script.js:498-513 | the session and transcript become those of `Dialogue.ShowBlogMenu` |
| Widget.ChatBot.WelcomeBack | script.js:127-135 | the session and transcript become those of `Dialogue.WelcomeBack` |
| Widget.ChatBot.Dispatch | script.js:137-155 | the session and transcript become those of `Dialogue.Dispatch` |
| Widget.ChatBot.EchoAndDispatch | script.js:123-155 | the echo and then the handler's reply are appended, as `Dialogue.Dispatch` gives it |
| Widget.ChatBot.SendMessage | script.js:119-156 | the session and transcript become those of `Dialogue.SendMessage`, and the session stays reachable |
| Widget.ChatBot.Timeout | script.js:91-99 | the session and transcript become those of `Dialogue.Timeout`, and the session stays reachable |

## Left out

- The page and its rendering are left out: element creation, `innerHTML`, scrolling, focus, and the typing indicator with its flag (`script.js:11-51`). The chat is the abstract list of `Action`s.
- Timing is left out. The delays of `botRespond` are kept as data in each text, and the `setTimeout`/`await` scheduling is not modelled. Each handler runs to completion, so input that arrives while the assistant is "typing" is not modelled to land on a stale state.
- `showOptions` appends its question through `setTimeout(…, 0)`, so on screen the question lands after the buttons. The model shows the question before the buttons: the order the code intends.
- The timer's arming and resetting are left out (`script.js:89-91`, `114-115`, `125`, `515`); only the effect of its callback is modelled, as the `Idle` event and `Widget.ChatBot.Timeout`.
- The page-load greeting, scheduled after 800 ms, is part of the initial transcript.
- The feedback is written with `console.log` (`script.js:490`), an external sink; the model drops it.
- Case mapping covers ASCII and the Latin-1 letters only. `toLowerCase` moves A-Z and U+00C0..U+00DE (without U+00D7) down; `toUpperCase` moves a-z and U+00E0..U+00FE (without U+00F7) up; every other character is kept. Full Unicode case mapping is not modelled.
- The regular expressions are not run by a general engine. Each of the three fixed patterns is written out as a function that follows the backtracking order of JavaScript for that pattern.
- Link texts, addresses and message wording are constants in `Wording`, `Caption` and `Href`; no property is stated about their contents.
- In the `blog` state the source calls `handleBlogChoice`, which does not exist and would throw. The model gives that state an empty reply, and `DialogueProperties.BlogNeverReached` shows the state is never entered.
- Dialogue.HandleNameResponse, Dialogue.Dispatch and Dialogue.SendMessage: their own contracts state only that buttons come last and fit the next state; what they do is stated by the lemmas of `DialogueProperties` about them.

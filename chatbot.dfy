/** The chat widget itself: the page's globals `conversationState` and
    `userName` and the list of chat entries become the fields of one object,
    and every function of script.js that changes them becomes a method proved
    to do exactly what the matching function of [Dialogue] says. */
module Widget {
  import opened Text
  import opened Names
  import opened Keywords
  import opened Dialogue
  import opened DialogueProperties

  /** The name-detection loop of `handleNameResponse`: try the patterns in
      order and stop at the first one whose capture group is non-empty. */
  method DetectNameLoop(lowerMessage: string) returns (detectedName: string)
    ensures detectedName == DetectName(lowerMessage)
  {
    detectedName := "";
    var i := 0;
    while i < |NamePatterns|
      invariant 0 <= i <= |NamePatterns|
      invariant DetectNameWith(lowerMessage, NamePatterns[i..]) == DetectName(lowerMessage)
    {
      var m := Capture(NamePatterns[i], lowerMessage);
      if m.Some? {
        detectedName := Refine(m.value);
        return;
      }
      i := i + 1;
    }
  }

  /** The name `handleNameResponse` reads from a message: detected in the
      lower-cased message, then title-cased. */
  method ReadName(message: string) returns (detectedName: string)
    ensures detectedName == ExtractName(message)
  {
    var lowerMessage := ToLower(message);
    detectedName := DetectNameLoop(lowerMessage);
    detectedName := TitleCase(detectedName);
  }

  class ChatBot {
    var state: State
    var userName: string
    /** The entries of the chat, oldest first. */
    var transcript: seq<Action>

    /** The part of the widget the conversation functions work on. */
    function Current(): Session
      reads this
    {
      Session(state, userName)
    }

    /** The session is one the conversation can reach. */
    predicate Valid()
      reads this
    {
      Reachable(Current())
    }

    /** The page after loading: asking for the name, with the greeting shown. */
    constructor ()
      ensures Current() == Initial && transcript == InitialTranscript
      ensures Valid()
    {
      state := AskName;
      userName := "";
      transcript := InitialTranscript;
    }

    // -------------------------------------------------------------------
    // Adding entries to the chat

    method AddUserMessage(text: string)
      modifies this
      ensures Current() == old(Current()) && transcript == old(transcript) + [UserText(text)]
    {
      transcript := transcript + [UserText(text)];
    }

    method AddBotMessage(text: Phrase)
      modifies this
      ensures Current() == old(Current()) && transcript == old(transcript) + [BotText(text, 0, 0)]
    {
      transcript := transcript + [BotText(text, 0, 0)];
    }

    /** A bot message holding the anchor `Caption(site)` to `Href(site)`. */
    method AddLink(site: Site)
      modifies this
      ensures Current() == old(Current()) && transcript == old(transcript) + [Link(site)]
    {
      transcript := transcript + [Link(site)];
    }

    /** `botRespond`: each message in turn, with its delays defaulted. */
    method BotRespond(messages: seq<Msg>)
      modifies this
      ensures Current() == old(Current()) && transcript == old(transcript) + Respond(messages)
    {
      for i := 0 to |messages|
        invariant Current() == old(Current())
        invariant transcript == old(transcript) + Respond(messages[..i])
      {
        var m := messages[i];
        assert Respond(messages[..i + 1]) == Respond(messages[..i]) + [Shown(m)];
        transcript := transcript + [BotText(m.phrase, OrDefault(m.typingDelay, 1000), OrDefault(m.messageDelay, 500))];
      }
      assert messages[..|messages|] == messages;
    }

    /** `showOptions`: the question, if any, then one button per option. */
    method ShowOptions(options: seq<string>, question: Option<Phrase>)
      modifies this
      ensures Current() == old(Current()) && transcript == old(transcript) + Options(options, question)
    {
      if question.Some? {
        AddBotMessage(question.value);
      }
      var row: seq<string> := [];
      for i := 0 to |options|
        invariant row == options[..i]
      {
        row := row + [options[i]];
      }
      assert row == options;
      transcript := transcript + [Buttons(row)];
    }

    // -------------------------------------------------------------------
    // The handlers

    method ShowMainMenu()
      modifies this
      ensures Current() == Dialogue.ShowMainMenu(old(Current())).next
      ensures transcript == old(transcript) + Dialogue.ShowMainMenu(old(Current())).out
    {
      BotRespond([Msg(HowCanIHelp(userName), 1000, 500)]);
      ShowOptions(MainMenuCaptions, None);
      state := MainMenu;
    }

    method HandleNameResponse(message: string)
      modifies this
      ensures Current() == Dialogue.HandleNameResponse(old(Current()), message).next
      ensures transcript == old(transcript) + Dialogue.HandleNameResponse(old(Current()), message).out
    {
      var detectedName := ReadName(message);
      if NameRejected(detectedName) {
        RejectName();
      } else {
        WelcomeName(detectedName);
      }
    }

    method RejectName()
      modifies this
      ensures Current() == Dialogue.RejectName(old(Current())).next
      ensures transcript == old(transcript) + Dialogue.RejectName(old(Current())).out
    {
      BotRespond([Msg(OddName, 1200, 600)]);
    }

    method WelcomeName(detectedName: string)
      modifies this
      ensures Current() == Dialogue.WelcomeName(old(Current()), detectedName).next
      ensures transcript == old(transcript) + Dialogue.WelcomeName(old(Current()), detectedName).out
    {
      userName := detectedName;
      BotRespond([Msg(NiceToMeet(userName), 1000, 800), Msg(Introduction, 1500, 800)]);
      ShowMainMenu();
    }

    method Goodbye()
      modifies this
      ensures Current() == Dialogue.Goodbye(old(Current())).next
      ensures transcript == old(transcript) + Dialogue.Goodbye(old(Current())).out
    {
      BotRespond([Msg(ThanksForChatting(userName), 1200, 600), Msg(AtYourService, 1500, 800)]);
      state := EndConversationConfirmed;
    }

    /** The services branch of the main menu. */
    method ShowServices()
      modifies this
      ensures Current() == Dialogue.ShowServices(old(Current())).next
      ensures transcript == old(transcript) + Dialogue.ShowServices(old(Current())).out
    {
      BotRespond([Msg(ServicesIntro, 800, 500)]);
      ShowOptions(InterestCaptions, Some(InterestQuestion));
      state := AskInterest;
    }

    /** The feedback branch of the main menu. */
    method AskForFeedback()
      modifies this
      ensures Current() == Dialogue.AskForFeedback(old(Current())).next
      ensures transcript == old(transcript) + Dialogue.AskForFeedback(old(Current())).out
    {
      BotRespond([Msg(FeedbackPrompt, 1000, 500)]);
      state := Feedback;
    }

    method HandleMainMenuChoice(choice: string)
      modifies this
      ensures Current() == Dialogue.HandleMainMenuChoice(old(Current()), choice).next
      ensures transcript == old(transcript) + Dialogue.HandleMainMenuChoice(old(Current()), choice).out
    {
      ghost var s0 := Current();
      var lowerChoice := ToLower(choice);
      match ClassifyMenu(lowerChoice)
      case Services =>
        assert Dialogue.HandleMainMenuChoice(s0, choice) == Dialogue.ShowServices(s0);
        ShowServices();
      case Contact =>
        assert Dialogue.HandleMainMenuChoice(s0, choice) == Dialogue.ShowContactOptions(s0);
        ShowContactOptions();
      case Faq =>
        assert Dialogue.HandleMainMenuChoice(s0, choice) == Dialogue.ShowFaqMenu(s0);
        ShowFaqMenu();
      case Schedule =>
        assert Dialogue.HandleMainMenuChoice(s0, choice) == Dialogue.ShowSchedulingOption(s0);
        ShowSchedulingOption();
      case BlogPosts =>
        assert Dialogue.HandleMainMenuChoice(s0, choice) == Dialogue.ShowBlogMenu(s0);
        ShowBlogMenu();
      case LeaveFeedback =>
        assert Dialogue.HandleMainMenuChoice(s0, choice) == Dialogue.AskForFeedback(s0);
        AskForFeedback();
      case EndChat =>
        assert Dialogue.HandleMainMenuChoice(s0, choice) == Dialogue.Goodbye(s0);
        Goodbye();
      case MenuUnknown =>
        assert Dialogue.HandleMainMenuChoice(s0, choice) == Dialogue.ShowNotUnderstoodMainMenu(s0);
        ShowNotUnderstoodMainMenu();
    }

    method HandleInterestResponse(message: string)
      modifies this
      ensures Current() == Dialogue.HandleInterestResponse(old(Current()), message).next
      ensures transcript == old(transcript) + Dialogue.HandleInterestResponse(old(Current()), message).out
    {
      var interest := ClassifyInterest(ToLower(message));
      if interest == InterestBack {
        ShowMainMenu();
        return;
      } else if interest == InterestUnknown {
        ShowNotUnderstood();
        return;
      }
      ShowPortfolio(interest);
    }

    method ShowPortfolio(interest: Interest)
      modifies this
      ensures Current() == Dialogue.ShowPortfolio(old(Current()), interest).next
      ensures transcript == old(transcript) + Dialogue.ShowPortfolio(old(Current()), interest).out
    {
      BotRespond([Msg(GreatChoice(interest), 1500, 800), Msg(PortfolioIntro(interest), 800, 500)]);
      AddLink(Portfolio(interest));
      BotRespond([Msg(KnowMore, 800, 500)]);
      ShowOptions(PortfolioFollowUpCaptions, None);
      state := FinalQuestion;
    }

    method HandleFinalResponse(message: string)
      modifies this
      ensures Current() == Dialogue.HandleFinalResponse(old(Current()), message).next
      ensures transcript == old(transcript) + Dialogue.HandleFinalResponse(old(Current()), message).out
    {
      var lowerMessage := ToLower(message);
      match ClassifyFinal(lowerMessage)
      case TalkOnWhatsApp =>
        AddLink(WhatsAppChat);
        AskAnythingElse(Msg(GladToHelp, 1000, 500));
      case Yes => ShowMainMenu();
      case No => Goodbye();
      case FinalUnknown => ShowNotUnderstood();
    }

    method ShowNotUnderstood()
      modifies this
      ensures Current() == Dialogue.ShowNotUnderstood(old(Current())).next
      ensures transcript == old(transcript) + Dialogue.ShowNotUnderstood(old(Current())).out
    {
      BotRespond([Msg(NotUnderstoodAnswer(userName), 1000, 500), Msg(PickOrType, 1500, 800)]);
      if state == AskInterest {
        ShowOptions(InterestCaptions, Some(InterestQuestion));
      } else {
        ShowMainMenu();
      }
    }

    method ShowNotUnderstoodMainMenu()
      modifies this
      ensures Current() == Dialogue.ShowNotUnderstoodMainMenu(old(Current())).next
      ensures transcript == old(transcript) + Dialogue.ShowNotUnderstoodMainMenu(old(Current())).out
    {
      BotRespond([Msg(NotUnderstoodOption(userName), 1000, 500), Msg(PickFromMenu, 1500, 800)]);
      ShowMainMenu();
    }

    method ShowContactOptions()
      modifies this
      ensures Current() == Dialogue.ShowContactOptions(old(Current())).next
      ensures transcript == old(transcript) + Dialogue.ShowContactOptions(old(Current())).out
    {
      BotRespond([Msg(ContactIntro, 1000, 500)]);
      ShowOptions(ContactCaptions, None);
      state := ContactOptions;
    }

    /** The tail every contact channel shares: the question and the yes/no buttons. */
    method AskAnythingElse(question: Msg)
      modifies this
      ensures Current() == Session(FinalQuestion, old(userName))
      ensures transcript == old(transcript) + Respond([question]) + Options(YesNoCaptions, None)
    {
      BotRespond([question]);
      ShowOptions(YesNoCaptions, None);
      state := FinalQuestion;
    }

    method HandleContactOption(choice: string)
      modifies this
      ensures Current() == Dialogue.HandleContactOption(old(Current()), choice).next
      ensures transcript == old(transcript) + Dialogue.HandleContactOption(old(Current()), choice).out
    {
      var channel := ClassifyChannel(ToLower(choice));
      match channel
      case ChannelBack => ShowMainMenu();
      case ChannelUnknown => ShowNotUnderstood();
      case _ => ShareChannel(channel);
    }

    method ShareChannel(channel: Channel)
      requires channel != ChannelBack && channel != ChannelUnknown
      modifies this
      ensures Current() == Dialogue.ShareChannel(old(Current()), channel).next
      ensures transcript == old(transcript) + Dialogue.ShareChannel(old(Current()), channel).out
    {
      match channel
      case WhatsApp =>
        AddLink(WhatsAppChat);
        AskAnythingElse(Msg(AwaitOnWhatsApp, 1000, 0));
      case Email =>
        BotRespond([Msg(SendEmail, 800, 0)]);
        AddLink(EmailAddress);
        AskAnythingElse(Msg(AnythingMore, 1000, 0));
      case Phone =>
        BotRespond([Msg(CallHenrique, 800, 0)]);
        AddLink(PhoneNumber);
        AskAnythingElse(Msg(AnythingMore, 1000, 0));
      case LinkedIn =>
        AddLink(LinkedInProfile);
        AskAnythingElse(Msg(ConnectOnLinkedIn, 1000, 0));
      case Instagram =>
        AddLink(InstagramProfile);
        AskAnythingElse(Msg(FollowOnInstagram, 1000, 0));
    }

    method ShowFaqMenu()
      modifies this
      ensures Current() == Dialogue.ShowFaqMenu(old(Current())).next
      ensures transcript == old(transcript) + Dialogue.ShowFaqMenu(old(Current())).out
    {
      BotRespond([Msg(FaqIntro, 1200, 600)]);
      ShowOptions(FaqCaptions, None);
      state := FaqMenu;
    }

    method HandleFaqChoice(choice: string)
      modifies this
      ensures Current() == Dialogue.HandleFaqChoice(old(Current()), choice).next
      ensures transcript == old(transcript) + Dialogue.HandleFaqChoice(old(Current()), choice).out
    {
      var topic := ClassifyFaq(ToLower(choice));
      if topic == FaqBack {
        ShowMainMenu();
        return;
      } else if topic == FaqUnknown {
        ShowNotUnderstood();
        return;
      }
      ghost var s0 := Current();
      var answer := Msg(Answer(topic), 1500, 800);
      var more := Msg(AnotherQuestion, 1000, 500);
      BotRespond([answer]);
      BotRespond([more]);
      RespondAppend([answer], [more]);
      assert [answer] + [more] == [answer, more];
      assert Dialogue.HandleFaqChoice(s0, choice) == ShowFaqAnswer(s0, topic);
      ShowOptions(FaqFollowUpCaptions, None);
      state := FinalQuestion;
    }

    method ShowSchedulingOption()
      modifies this
      ensures Current() == Dialogue.ShowSchedulingOption(old(Current())).next
      ensures transcript == old(transcript) + Dialogue.ShowSchedulingOption(old(Current())).out
    {
      BotRespond([Msg(ScheduleIntro(userName), 1500, 800), Msg(ScheduleHere, 1000, 500)]);
      AddLink(Calendar);
      AskAnythingElse(Msg(AnythingElse, 1000, 500));
    }

    /** The feedback text itself is written to the console, which is not
        part of the chat. */
    method HandleFeedbackInput(feedbackMessage: string)
      modifies this
      ensures Current() == Dialogue.HandleFeedbackInput(old(Current()), feedbackMessage).next
      ensures transcript == old(transcript) + Dialogue.HandleFeedbackInput(old(Current()), feedbackMessage).out
    {
      if Utf16Length(feedbackMessage) < 10 {
        BotRespond([Msg(FeedbackTooShort, 1200, 600)]);
        return;
      }
      BotRespond([Msg(FeedbackReceived, 1500, 800)]);
      ShowMainMenu();
    }

    method ShowBlogMenu()
      modifies this
      ensures Current() == Dialogue.ShowBlogMenu(old(Current())).next
      ensures transcript == old(transcript) + Dialogue.ShowBlogMenu(old(Current())).out
    {
      BotRespond([Msg(BlogIntro(userName), 1200, 600), Msg(BlogHere, 1000, 500)]);
      AddLink(BlogHome);
      AskAnythingElse(Msg(AnythingElse, 1000, 500));
    }

    // -------------------------------------------------------------------
    // The two entry points

    /** The welcome-back branch of `sendMessage`. */
    method WelcomeBack()
      modifies this
      ensures Current() == Dialogue.WelcomeBack(old(Current())).next
      ensures transcript == old(transcript) + Dialogue.WelcomeBack(old(Current())).out
    {
      BotRespond([Msg(GoodToSeeYou(DisplayName(userName)), 1000, 500)]);
      ShowMainMenu();
    }

    /** The part of `sendMessage` after the visitor's text is shown: the
        handler of the current state. */
    method Dispatch(message: string)
      modifies this
      ensures Current() == Dialogue.Dispatch(old(Current()), message).next
      ensures transcript == old(transcript) + Dialogue.Dispatch(old(Current()), message).out
    {
      if state == Inactive || state == EndConversationConfirmed {
        WelcomeBack();
      } else if state == AskName {
        HandleNameResponse(message);
      } else if state == MainMenu {
        HandleMainMenuChoice(message);
      } else if state == AskInterest {
        HandleInterestResponse(message);
      } else if state == FinalQuestion {
        HandleFinalResponse(message);
      } else if state == ContactOptions {
        HandleContactOption(message);
      } else if state == FaqMenu {
        HandleFaqChoice(message);
      } else if state == Feedback {
        HandleFeedbackInput(message);
      }
    }

    /** The visitor's text shown, then handed to the current state's handler. */
    method EchoAndDispatch(message: string)
      modifies this
      ensures Current() == Dialogue.Dispatch(old(Current()), message).next
      ensures transcript == old(transcript) + ([UserText(message)] + Dialogue.Dispatch(old(Current()), message).out)
    {
      AddUserMessage(message);
      Dispatch(message);
    }

    /** `sendMessage` with the submitted text. */
    method SendMessage(input: string)
      requires Valid()
      modifies this
      ensures Current() == Dialogue.SendMessage(old(Current()), input).next
      ensures transcript == old(transcript) + Dialogue.SendMessage(old(Current()), input).out
      ensures Valid()
    {
      ghost var s0 := Current();
      StepKeepsReachable(s0, Submit(input));
      var message := Trim(input);
      if message == "" {
        return;
      }
      EchoesThenDispatches(s0, input);
      EchoAndDispatch(message);
    }

    /** The inactivity timer's callback. */
    method Timeout()
      requires Valid()
      modifies this
      ensures Current() == Dialogue.Timeout(old(Current())).next
      ensures transcript == old(transcript) + Dialogue.Timeout(old(Current())).out
      ensures Valid()
    {
      ghost var s0 := Current();
      StepKeepsReachable(s0, Idle);
      assert Step(s0, Idle) == Dialogue.Timeout(s0);
      if state != EndConversationConfirmed {
        var stillHere := Msg(StillHere(DisplayName(userName)), 1500, 800);
        BotRespond([stillHere]);
        state := Inactive;
        assert Dialogue.Timeout(s0) == Reply(Session(Inactive, s0.userName), Respond([stillHere]));
      }
    }
  }
}

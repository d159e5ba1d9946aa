/** What the conversation guarantees, proved about the functions of [Dialogue]. */
module DialogueProperties {
  import opened Text
  import opened Names
  import opened Keywords
  import opened Dialogue

  // ---------------------------------------------------------------------
  // Empty input

  /** `sendMessage` ignores input that trims to nothing, and shows something
      for every other input. */
  lemma EmptyInputIsNoOp(s: Session, input: string)
    ensures SendMessage(s, input).out == [] <==> AllWhitespace(input)
    ensures AllWhitespace(input) ==> SendMessage(s, input).next == s
  {
  }

  /** Any other input is echoed trimmed and handed to the current state's
      handler. */
  lemma EchoesThenDispatches(s: Session, input: string)
    requires !AllWhitespace(input)
    ensures var m := Trim(input);
      SendMessage(s, input) == Reply(Dispatch(s, m).next, [UserText(m)] + Dispatch(s, m).out)
  {
  }

  // ---------------------------------------------------------------------
  // The reachable sessions

  /** A stored name is either absent or a name the name step accepts. */
  predicate WellFormedName(name: string) {
    name == "" || (|name| >= 2 && IsTrimmed(name) && !HasDigit(name) && TitleCase(name) == name)
  }

  /** What holds of every session the conversation reaches: the `Blog` state
      is never entered, no name is stored while the name is asked for, and a
      stored name is well formed. */
  predicate Reachable(s: Session) {
    s.state != Blog && (s.state == AskName ==> s.userName == "") && WellFormedName(s.userName)
  }

  /** Outside the name step, handling a message keeps the name and never goes
      back to asking for it, into the `Blog` state or into the inactive state. */
  lemma DispatchKeepsName(s: Session, message: string)
    requires s.state != AskName && s.state != Blog
    ensures var r := Dispatch(s, message); r.next.userName == s.userName && Conversing(r.next.state)
  {
  }

  /** The name step either keeps the session or stores an accepted name and
      moves to the main menu. */
  lemma NameStepOutcome(s: Session, message: string)
    ensures var r := HandleNameResponse(s, message); var name := ExtractName(message);
      if |name| < 2 then r.next == s
      else r.next == Session(MainMenu, name) && WellFormedName(name)
  {
    ExtractedNameShape(message);
    NameRejectedIffShort(message);
  }

  lemma InitialReachable()
    ensures Reachable(Initial)
  {
  }

  lemma StepKeepsReachable(s: Session, e: Event)
    requires Reachable(s)
    ensures Reachable(Step(s, e).next)
  {
    match e
    case Idle =>
    case Submit(text) =>
      var m := Trim(text);
      if m != [] {
        if s.state == AskName {
          NameStepOutcome(s, m);
        } else {
          DispatchKeepsName(s, m);
        }
      }
  }

  lemma {:induction false} RunKeepsReachable(s: Session, events: seq<Event>)
    requires Reachable(s)
    ensures Reachable(Run(s, events))
    decreases |events|
  {
    if events != [] {
      StepKeepsReachable(s, events[0]);
      RunKeepsReachable(Step(s, events[0]).next, events[1..]);
    }
  }

  /** Only nine of the ten states are ever reached: `Blog` never is. */
  lemma BlogNeverReached(events: seq<Event>)
    ensures Run(Initial, events).state != Blog
  {
    RunKeepsReachable(Initial, events);
  }

  // ---------------------------------------------------------------------
  // The name is written once

  /** Only a submission while the name is asked for changes the name. */
  lemma NameChangesOnlyWhenAsked(s: Session, e: Event)
    ensures Step(s, e).next.userName != s.userName ==> s.state == AskName && e.Submit?
    ensures s.state != AskName ==> Step(s, e).next.state != AskName
  {
    match e
    case Idle =>
    case Submit(text) =>
      if s.state != AskName {
        SubmitKeepsName(s, text);
      }
  }

  lemma SubmitKeepsName(s: Session, text: string)
    requires s.state != AskName
    ensures var r := SendMessage(s, text); r.next.userName == s.userName && r.next.state != AskName
  {
    var m := Trim(text);
    if m != [] {
      EchoesThenDispatches(s, text);
      if s.state == Blog {
        assert Dispatch(s, m) == Reply(s, []);
      } else {
        DispatchKeepsName(s, m);
      }
    }
  }

  /** Once the conversation has left the name step, the name never changes again. */
  lemma {:induction false} NameFixedAfterAskName(s: Session, events: seq<Event>)
    requires s.state != AskName
    ensures Run(s, events).userName == s.userName
    decreases |events|
  {
    if events != [] {
      NameChangesOnlyWhenAsked(s, events[0]);
      NameFixedAfterAskName(Step(s, events[0]).next, events[1..]);
    }
  }

  /** A stored name is never overwritten. */
  lemma NameWrittenOnce(s: Session, events: seq<Event>)
    requires Reachable(s) && s.userName != ""
    ensures Run(s, events).userName == s.userName
  {
    NameFixedAfterAskName(s, events);
  }

  // ---------------------------------------------------------------------
  // Without inactivity, a name is stored before anything else happens

  predicate NoIdle(events: seq<Event>) {
    forall i :: 0 <= i < |events| ==> events[i].Submit?
  }

  /** Reachable, never inactive, and named once past the name step. */
  predicate NamedUnlessAsking(s: Session) {
    Reachable(s) && s.state != Inactive && (s.state != AskName ==> |s.userName| >= 2)
  }

  lemma SubmitKeepsNamed(s: Session, text: string)
    requires NamedUnlessAsking(s)
    ensures NamedUnlessAsking(SendMessage(s, text).next)
  {
    StepKeepsReachable(s, Submit(text));
    var m := Trim(text);
    if m != [] {
      if s.state == AskName {
        NameStepOutcome(s, m);
      } else {
        DispatchKeepsName(s, m);
      }
    }
  }

  lemma {:induction false} RunWithoutIdleNamed(s: Session, events: seq<Event>)
    requires NamedUnlessAsking(s) && NoIdle(events)
    ensures NamedUnlessAsking(Run(s, events))
    decreases |events|
  {
    if events != [] {
      assert events[0].Submit?;
      SubmitKeepsNamed(s, events[0].text);
      assert NoIdle(events[1..]) by {
        forall i | 0 <= i < |events| - 1 ensures events[1..][i].Submit? { assert events[1..][i] == events[i + 1]; }
      }
      RunWithoutIdleNamed(Step(s, events[0]).next, events[1..]);
    }
  }

  /** Without the inactivity timer, every state after the name step has a
      name of at least two characters. */
  lemma NamedWithoutIdle(events: seq<Event>)
    requires NoIdle(events)
    ensures var s := Run(Initial, events); s.state != AskName ==> |s.userName| >= 2
  {
    RunWithoutIdleNamed(Initial, events);
  }

  /** With the timer, the name step can be skipped: an idle visitor who then
      types anything reaches the main menu with no name stored. */
  lemma IdleSkipsName(text: string)
    requires !AllWhitespace(text)
    ensures Run(Initial, [Idle, Submit(text)]) == Session(MainMenu, "")
  {
    var s1 := Session(Inactive, "");
    RunTwo(Initial, Idle, Submit(text));
    assert Step(Initial, Idle).next == s1;
    EchoesThenDispatches(s1, text);
    ReturnShowsWelcomeAndMenu(s1, Trim(text));
  }

  lemma RunTwo(s: Session, e1: Event, e2: Event)
    ensures Run(s, [e1, e2]) == Step(Step(s, e1).next, e2).next
  {
    var events := [e1, e2];
    var s1 := Step(s, e1).next;
    assert events[1..] == [e2];
    assert Run(s, events) == Run(s1, [e2]);
    assert [e2][1..] == [];
    assert Run(s1, [e2]) == Run(Step(s1, e2).next, []);
  }

  // ---------------------------------------------------------------------
  // The name step

  /** An extracted name is refused exactly when it is shorter than two
      characters; an accepted one is stored and the main menu shown. */
  lemma NameStep(input: string)
    requires !AllWhitespace(input)
    ensures var r := SendMessage(Initial, input); var name := ExtractName(Trim(input));
      (r.next.state == AskName <==> |name| < 2)
      && (|name| >= 2 ==> r.next == Session(MainMenu, name))
      && (|name| < 2 ==> r.next == Initial)
  {
    NameStepOutcome(Initial, Trim(input));
  }

  /** "meu nome é joão" is greeted as João. */
  lemma JoaoGreeted(input: string)
    requires input == "meu nome é joão"
    ensures SendMessage(Initial, input).next == Session(MainMenu, "João")
  {
    assert IsTrimmed(input);
    JoaoExtracted(input);
    NameStep(input);
  }

  // ---------------------------------------------------------------------
  // Feedback

  /** Feedback shorter than ten UTF-16 code units keeps the conversation in
      the feedback state; anything longer is accepted and the main menu shown. */
  lemma FeedbackThreshold(name: string, input: string)
    requires !AllWhitespace(input)
    ensures var r := SendMessage(Session(Feedback, name), input);
      r.next == Session(if Utf16Length(Trim(input)) < 10 then Feedback else MainMenu, name)
    ensures Utf16Length(Trim(input)) < 10 ==>
      SendMessage(Session(Feedback, name), input).out == [UserText(Trim(input)), BotText(FeedbackTooShort, 1200, 600)]
  {
    var s := Session(Feedback, name);
    var m := Trim(input);
    EchoesThenDispatches(s, input);
    FeedbackHandled(s, m);
    var d := Dispatch(s, m);
    assert SendMessage(s, input) == Reply(d.next, [UserText(m)] + d.out);
  }

  /** In the feedback state a short message is answered by one request for
      more detail; a longer one by the acknowledgement and the main menu. */
  lemma FeedbackHandled(s: Session, m: string)
    requires s.state == Feedback
    ensures Dispatch(s, m).next == Session(if Utf16Length(m) < 10 then Feedback else MainMenu, s.userName)
    ensures Utf16Length(m) < 10 ==> Dispatch(s, m).out == [BotText(FeedbackTooShort, 1200, 600)]
    ensures Utf16Length(m) >= 10 ==>
      Dispatch(s, m).out ==
        [BotText(FeedbackReceived, 1500, 800), BotText(HowCanIHelp(s.userName), 1000, 500), Buttons(MainMenuCaptions)]
  {
    assert Dispatch(s, m) == HandleFeedbackInput(s, m);
    RespondShort(Msg(FeedbackTooShort, 1200, 600), Msg(FeedbackReceived, 1500, 800));
    RespondShort(Msg(FeedbackReceived, 1500, 800), Msg(HowCanIHelp(s.userName), 1000, 500));
  }

  /** "too short" has nine code units and is sent back; "just right" has ten
      and is accepted. */
  lemma FeedbackExamples(name: string, short: string, enough: string)
    requires short == "too short" && enough == "just right"
    ensures Dispatch(Session(Feedback, name), short).next.state == Feedback
    ensures Dispatch(Session(Feedback, name), enough).next.state == MainMenu
  {
    Utf16LengthOfBmp(short);
    Utf16LengthOfBmp(enough);
  }

  // ---------------------------------------------------------------------
  // Coming back to an idle or finished conversation

  /** A message to an idle or finished conversation is answered by the
      welcome-back text and the main menu, whatever it says. */
  lemma ReturnShowsWelcomeAndMenu(s: Session, message: string)
    requires s.state == Inactive || s.state == EndConversationConfirmed
    ensures var r := Dispatch(s, message);
      r.next == Session(MainMenu, s.userName)
      && r.out == [BotText(GoodToSeeYou(DisplayName(s.userName)), 1000, 500),
                   BotText(HowCanIHelp(s.userName), 1000, 500),
                   Buttons(MainMenuCaptions)]
  {
    assert Dispatch(s, message) == WelcomeBack(s);
    RespondShort(Msg(GoodToSeeYou(DisplayName(s.userName)), 1000, 500), Msg(HowCanIHelp(s.userName), 1000, 500));
  }


  // ---------------------------------------------------------------------
  // The inactivity timer

  /** The timer marks every conversation inactive except a finished one,
      which it leaves exactly as it is; it never changes the name. */
  lemma TimeoutOutcome(s: Session)
    ensures Timeout(s).next.userName == s.userName
    ensures s.state == EndConversationConfirmed ==> Timeout(s) == Reply(s, [])
    ensures s.state != EndConversationConfirmed ==>
      Timeout(s).next.state == Inactive && Timeout(s).out == [BotText(StillHere(DisplayName(s.userName)), 1500, 800)]
  {
  }

  // ---------------------------------------------------------------------
  // Input no keyword matches

  /** The keywords the handler of a state looks for. */
  function StateKeywords(st: State): seq<string> {
    match st
    case MainMenu => MenuKeywords
    case AskInterest => InterestKeywords
    case FinalQuestion => FinalKeywords
    case ContactOptions => ChannelKeywords
    case FaqMenu => FaqKeywords
    case _ => []
  }

  predicate MenuState(st: State) {
    st == MainMenu || st == AskInterest || st == FinalQuestion || st == ContactOptions || st == FaqMenu
  }

  /** An input holding no keyword of a menu state keeps the name and lands in
      the main menu, except while a service is being chosen, where the service
      buttons are shown again. */
  lemma UnrecognisedInput(s: Session, input: string)
    requires MenuState(s.state) && !AllWhitespace(input)
    requires !ContainsAny(ToLower(Trim(input)), StateKeywords(s.state))
    ensures var r := SendMessage(s, input);
      r.next == Session(if s.state == AskInterest then AskInterest else MainMenu, s.userName)
  {
    EchoesThenDispatches(s, input);
    UnrecognisedMessage(s, Trim(input));
  }

  lemma UnrecognisedMessage(s: Session, m: string)
    requires MenuState(s.state) && !ContainsAny(ToLower(m), StateKeywords(s.state))
    ensures Dispatch(s, m).next == Session(if s.state == AskInterest then AskInterest else MainMenu, s.userName)
  {
    var lower := ToLower(m);
    match s.state
    case MainMenu =>
      MenuUnknownIff(lower);
      assert HandleMainMenuChoice(s, m) == ShowNotUnderstoodMainMenu(s);
    case AskInterest =>
      InterestUnknownIff(lower);
      assert HandleInterestResponse(s, m) == ShowNotUnderstood(s);
    case FinalQuestion =>
      FinalUnknownIff(lower);
      assert HandleFinalResponse(s, m) == ShowNotUnderstood(s);
    case ContactOptions =>
      ChannelUnknownIff(lower);
      assert HandleContactOption(s, m) == ShowNotUnderstood(s);
    case FaqMenu =>
      FaqUnknownIff(lower);
      assert HandleFaqChoice(s, m) == ShowNotUnderstood(s);
  }

  /** While a service is being chosen, an unrecognised answer is met with an
      apology, the question and the five service buttons. */
  lemma UnrecognisedInterest(s: Session, m: string)
    requires s.state == AskInterest && !ContainsAny(ToLower(m), InterestKeywords)
    ensures Dispatch(s, m).out ==
      [BotText(NotUnderstoodAnswer(s.userName), 1000, 500), BotText(PickOrType, 1500, 800),
       BotText(InterestQuestion, 0, 0), Buttons(InterestCaptions)]
  {
    InterestUnknownIff(ToLower(m));
    assert Dispatch(s, m) == ShowNotUnderstood(s);
    RespondShort(Msg(NotUnderstoodAnswer(s.userName), 1000, 500), Msg(PickOrType, 1500, 800));
  }

  /** In the main menu, an unrecognised choice is met with an apology and the
      main menu again. */
  lemma UnrecognisedMenuChoice(s: Session, m: string)
    requires s.state == MainMenu && !ContainsAny(ToLower(m), MenuKeywords)
    ensures Dispatch(s, m).out ==
      [BotText(NotUnderstoodOption(s.userName), 1000, 500), BotText(PickFromMenu, 1500, 800),
       BotText(HowCanIHelp(s.userName), 1000, 500), Buttons(MainMenuCaptions)]
  {
    MenuUnknownIff(ToLower(m));
    assert Dispatch(s, m) == ShowNotUnderstoodMainMenu(s);
    RespondShort(Msg(NotUnderstoodOption(s.userName), 1000, 500), Msg(PickFromMenu, 1500, 800));
    RespondShort(Msg(HowCanIHelp(s.userName), 1000, 500), Msg(HowCanIHelp(s.userName), 1000, 500));
  }

  // ---------------------------------------------------------------------
  // The buttons

  /** What the state's handler makes of caption `c`: anything but its
      not-understood branch. */
  predicate Recognised(st: State, c: string) {
    match st
    case MainMenu => ClassifyMenu(ToLower(c)) != MenuUnknown
    case AskInterest => ClassifyInterest(ToLower(c)) != InterestUnknown
    case FinalQuestion => ClassifyFinal(ToLower(c)) != FinalUnknown
    case ContactOptions => ClassifyChannel(ToLower(c)) != ChannelUnknown
    case FaqMenu => ClassifyFaq(ToLower(c)) != FaqUnknown
    case _ => false
  }

  lemma FittingButtonsRecognised(st: State, cs: seq<string>)
    requires Fits(st, cs)
    ensures forall c :: c in cs ==> Recognised(st, c)
  {
    forall c | c in cs ensures Recognised(st, c) {
      var i :| 0 <= i < |cs| && cs[i] == c;
      match st
      case MainMenu => MainMenuCaptionsRoute(i);
      case AskInterest => InterestCaptionsRoute(i);
      case FinalQuestion =>
        if cs == PortfolioFollowUpCaptions { PortfolioFollowUpRoute(i); }
        else if cs == YesNoCaptions { YesNoRoute(i); }
        else { FaqFollowUpRoute(i); }
      case ContactOptions => ContactCaptionsRoute(i);
      case FaqMenu => FaqCaptionsRoute(i);
    }
  }

  /** Every button the conversation offers is understood by the state it
      offers it in. */
  lemma OfferedButtonsRecognised(s: Session, input: string)
    ensures var r := SendMessage(s, input);
      forall i :: 0 <= i < |r.out| - 1 ==> !r.out[i].Buttons?
    ensures var r := SendMessage(s, input);
      r.out != [] && r.out[|r.out| - 1].Buttons? ==>
        forall c :: c in r.out[|r.out| - 1].captions ==> Recognised(r.next.state, c)
  {
    var r := SendMessage(s, input);
    if r.out != [] && r.out[|r.out| - 1].Buttons? {
      FittingButtonsRecognised(r.next.state, r.out[|r.out| - 1].captions);
    }
  }

  // ---------------------------------------------------------------------
  // The transition table

  /** The state each main-menu choice leads to. */
  function MenuTarget(c: MenuChoice): State {
    match c
    case Services => AskInterest
    case Contact => ContactOptions
    case Faq => FaqMenu
    case Schedule => FinalQuestion
    case BlogPosts => FinalQuestion
    case LeaveFeedback => Feedback
    case EndChat => EndConversationConfirmed
    case MenuUnknown => MainMenu
  }

  function InterestTarget(i: Interest): State {
    match i
    case InterestBack => MainMenu
    case InterestUnknown => AskInterest
    case _ => FinalQuestion
  }

  function FinalTarget(a: FinalAnswer): State {
    match a
    case TalkOnWhatsApp => FinalQuestion
    case Yes => MainMenu
    case No => EndConversationConfirmed
    case FinalUnknown => MainMenu
  }

  function ChannelTarget(c: Channel): State {
    match c
    case ChannelBack => MainMenu
    case ChannelUnknown => MainMenu
    case _ => FinalQuestion
  }

  function FaqTarget(t: FaqTopic): State {
    match t
    case FaqBack => MainMenu
    case FaqUnknown => MainMenu
    case _ => FinalQuestion
  }

  /** The state a menu state moves to on a non-empty message, by the branch
      its handler takes. */
  function Target(st: State, lower: string): State
    requires MenuState(st)
  {
    match st
    case MainMenu => MenuTarget(ClassifyMenu(lower))
    case AskInterest => InterestTarget(ClassifyInterest(lower))
    case FinalQuestion => FinalTarget(ClassifyFinal(lower))
    case ContactOptions => ChannelTarget(ClassifyChannel(lower))
    case FaqMenu => FaqTarget(ClassifyFaq(lower))
  }

  lemma MenuStep(s: Session, m: string)
    requires s.state == MainMenu
    ensures HandleMainMenuChoice(s, m).next == Session(Target(s.state, ToLower(m)), s.userName)
  {
  }

  lemma InterestStep(s: Session, m: string)
    requires s.state == AskInterest
    ensures HandleInterestResponse(s, m).next == Session(Target(s.state, ToLower(m)), s.userName)
  {
  }

  lemma FinalStep(s: Session, m: string)
    requires s.state == FinalQuestion
    ensures HandleFinalResponse(s, m).next == Session(Target(s.state, ToLower(m)), s.userName)
  {
  }

  lemma ChannelStep(s: Session, m: string)
    requires s.state == ContactOptions
    ensures HandleContactOption(s, m).next == Session(Target(s.state, ToLower(m)), s.userName)
  {
  }

  lemma FaqStep(s: Session, m: string)
    requires s.state == FaqMenu
    ensures HandleFaqChoice(s, m).next == Session(Target(s.state, ToLower(m)), s.userName)
  {
  }

  /** In every menu state a non-empty message moves the conversation as the
      transition table says, keeping the name. */
  lemma MenuTransition(s: Session, input: string)
    requires MenuState(s.state) && !AllWhitespace(input)
    ensures SendMessage(s, input).next == Session(Target(s.state, ToLower(Trim(input))), s.userName)
  {
    var m := Trim(input);
    EchoesThenDispatches(s, input);
    match s.state
    case MainMenu => MenuStep(s, m);
    case AskInterest => InterestStep(s, m);
    case FinalQuestion => FinalStep(s, m);
    case ContactOptions => ChannelStep(s, m);
    case FaqMenu => FaqStep(s, m);
  }

  /** A caption is submitted unchanged. */
  lemma PressCaption(c: string)
    requires IsTrimmed(c) && c != []
    ensures !AllWhitespace(c) && Trim(c) == c
  {
  }

  /** Pressing a button with caption `c` in a menu state. */
  lemma Press(s: Session, c: string)
    requires MenuState(s.state) && IsTrimmed(c) && c != []
    ensures SendMessage(s, c).next == Session(Target(s.state, ToLower(c)), s.userName)
  {
    PressCaption(c);
    MenuTransition(s, c);
  }

  lemma MenuTargets(i: nat)
    requires i < 7
    ensures MenuTarget([Services, Contact, Faq, Schedule, BlogPosts, LeaveFeedback, EndChat][i])
      == [AskInterest, ContactOptions, FaqMenu, FinalQuestion, FinalQuestion, Feedback, EndConversationConfirmed][i]
  {
  }

  lemma InterestTargets(i: nat)
    requires i < 5
    ensures InterestTarget([Website, Chatbot, ECommerce, Hosting, InterestBack][i]) == if i < 4 then FinalQuestion else MainMenu
  {
  }

  lemma ChannelTargets(i: nat)
    requires i < 6
    ensures ChannelTarget([WhatsApp, Email, Phone, LinkedIn, Instagram, ChannelBack][i]) == if i < 5 then FinalQuestion else MainMenu
  {
  }

  lemma FaqTargets(i: nat)
    requires i < 5
    ensures FaqTarget([Cost, Deadline, Maintenance, Payment, FaqBack][i]) == if i < 4 then FinalQuestion else MainMenu
  {
  }

  lemma PressMenu(name: string, c: string, intent: MenuChoice)
    requires IsTrimmed(c) && c != [] && ClassifyMenu(ToLower(c)) == intent
    ensures SendMessage(Session(MainMenu, name), c).next == Session(MenuTarget(intent), name)
  {
    Press(Session(MainMenu, name), c);
  }

  lemma PressInterest(name: string, c: string, intent: Interest)
    requires IsTrimmed(c) && c != [] && ClassifyInterest(ToLower(c)) == intent
    ensures SendMessage(Session(AskInterest, name), c).next == Session(InterestTarget(intent), name)
  {
    Press(Session(AskInterest, name), c);
  }

  lemma PressFinal(name: string, c: string, intent: FinalAnswer)
    requires IsTrimmed(c) && c != [] && ClassifyFinal(ToLower(c)) == intent
    ensures SendMessage(Session(FinalQuestion, name), c).next == Session(FinalTarget(intent), name)
  {
    Press(Session(FinalQuestion, name), c);
  }

  lemma PressChannel(name: string, c: string, intent: Channel)
    requires IsTrimmed(c) && c != [] && ClassifyChannel(ToLower(c)) == intent
    ensures SendMessage(Session(ContactOptions, name), c).next == Session(ChannelTarget(intent), name)
  {
    Press(Session(ContactOptions, name), c);
  }

  lemma PressFaq(name: string, c: string, intent: FaqTopic)
    requires IsTrimmed(c) && c != [] && ClassifyFaq(ToLower(c)) == intent
    ensures SendMessage(Session(FaqMenu, name), c).next == Session(FaqTarget(intent), name)
  {
    Press(Session(FaqMenu, name), c);
  }

  lemma FinalTargets(i: nat)
    ensures i < 2 ==> FinalTarget([TalkOnWhatsApp, No][i]) == if i == 0 then FinalQuestion else EndConversationConfirmed
    ensures i < 2 ==> FinalTarget([Yes, No][i]) == if i == 0 then MainMenu else EndConversationConfirmed
    ensures i < 3 ==> FinalTarget([Yes, No, No][i]) == if i == 0 then MainMenu else EndConversationConfirmed
  {
  }

  /** Where each main-menu button leads. */
  lemma MainMenuButtons(name: string, i: nat)
    requires i < |MainMenuCaptions|
    ensures SendMessage(Session(MainMenu, name), MainMenuCaptions[i]).next ==
      Session([AskInterest, ContactOptions, FaqMenu, FinalQuestion, FinalQuestion, Feedback, EndConversationConfirmed][i], name)
  {
    MainMenuPressable();
    MainMenuCaptionsRoute(i);
    PressMenu(name, MainMenuCaptions[i], [Services, Contact, Faq, Schedule, BlogPosts, LeaveFeedback, EndChat][i]);
    MenuTargets(i);
  }

  /** Where each service button leads: a portfolio, or the main menu. */
  lemma InterestButtons(name: string, i: nat)
    requires i < |InterestCaptions|
    ensures SendMessage(Session(AskInterest, name), InterestCaptions[i]).next ==
      Session(if i < 4 then FinalQuestion else MainMenu, name)
  {
    InterestPressable();
    InterestCaptionsRoute(i);
    PressInterest(name, InterestCaptions[i], [Website, Chatbot, ECommerce, Hosting, InterestBack][i]);
    InterestTargets(i);
  }

  /** Where each contact button leads: a channel, or the main menu. */
  lemma ContactButtons(name: string, i: nat)
    requires i < |ContactCaptions|
    ensures SendMessage(Session(ContactOptions, name), ContactCaptions[i]).next ==
      Session(if i < 5 then FinalQuestion else MainMenu, name)
  {
    ContactPressable();
    ContactCaptionsRoute(i);
    PressChannel(name, ContactCaptions[i], [WhatsApp, Email, Phone, LinkedIn, Instagram, ChannelBack][i]);
    ChannelTargets(i);
  }

  /** Where each FAQ button leads: an answer, or the main menu. */
  lemma FaqButtons(name: string, i: nat)
    requires i < |FaqCaptions|
    ensures SendMessage(Session(FaqMenu, name), FaqCaptions[i]).next ==
      Session(if i < 4 then FinalQuestion else MainMenu, name)
  {
    FaqPressable();
    FaqCaptionsRoute(i);
    PressFaq(name, FaqCaptions[i], [Cost, Deadline, Maintenance, Payment, FaqBack][i]);
    FaqTargets(i);
  }

  /** The buttons after a portfolio: WhatsApp keeps the closing question
      open, and "Voltar ao menu principal" ends the conversation. */
  lemma PortfolioFollowUpButtons(name: string, i: nat)
    requires i < |PortfolioFollowUpCaptions|
    ensures SendMessage(Session(FinalQuestion, name), PortfolioFollowUpCaptions[i]).next ==
      Session(if i == 0 then FinalQuestion else EndConversationConfirmed, name)
  {
    PortfolioFollowUpPressable();
    PortfolioFollowUpRoute(i);
    PressFinal(name, PortfolioFollowUpCaptions[i], [TalkOnWhatsApp, No][i]);
    FinalTargets(i);
  }

  /** The yes/no buttons: yes goes to the main menu, no ends the conversation. */
  lemma YesNoButtons(name: string, i: nat)
    requires i < |YesNoCaptions|
    ensures SendMessage(Session(FinalQuestion, name), YesNoCaptions[i]).next ==
      Session(if i == 0 then MainMenu else EndConversationConfirmed, name)
  {
    YesNoPressable();
    YesNoRoute(i);
    PressFinal(name, YesNoCaptions[i], [Yes, No][i]);
    FinalTargets(i);
  }

  /** The buttons after an FAQ answer: yes goes to the main menu; no and
      "Voltar ao menu principal" both end the conversation. */
  lemma FaqFollowUpButtons(name: string, i: nat)
    requires i < |FaqFollowUpCaptions|
    ensures SendMessage(Session(FinalQuestion, name), FaqFollowUpCaptions[i]).next ==
      Session(if i == 0 then MainMenu else EndConversationConfirmed, name)
  {
    FaqFollowUpPressable();
    FaqFollowUpRoute(i);
    PressFinal(name, FaqFollowUpCaptions[i], [Yes, No, No][i]);
    FinalTargets(i);
  }

  // ---------------------------------------------------------------------
  // Worked examples

  /** The main-menu caption "Serviços" lists the services: the introduction,
      the question and one row of five buttons. */
  lemma ServicesExample(name: string)
    ensures var r := Dispatch(Session(MainMenu, name), MainMenuCaptions[0]);
      r.next == Session(AskInterest, name) &&
      r.out == [BotText(ServicesIntro, 800, 500), BotText(InterestQuestion, 0, 0), Buttons(InterestCaptions)]
  {
    var s := Session(MainMenu, name);
    var c := MainMenuCaptions[0];
    MainMenuCaptionsRoute(0);
    assert Dispatch(s, c) == ShowServices(s);
    RespondShort(Msg(ServicesIntro, 800, 500), Msg(ServicesIntro, 800, 500));
  }

  /** The service caption "Website" shows the website portfolio link and
      moves to the closing question. */
  lemma WebsiteExample(name: string)
    ensures var r := Dispatch(Session(AskInterest, name), InterestCaptions[0]);
      r.next == Session(FinalQuestion, name) && Link(Portfolio(Website)) in r.out
  {
    InterestCaptionsRoute(0);
    PortfolioShowsLink(Session(AskInterest, name), InterestCaptions[0], Website);
  }

  /** Naming a service while services are offered shows that service's
      portfolio link and moves to the closing question. */
  lemma ServiceChosen(s: Session, input: string)
    requires s.state == AskInterest && !AllWhitespace(input)
    requires ClassifyInterest(ToLower(Trim(input))) != InterestBack
    requires ClassifyInterest(ToLower(Trim(input))) != InterestUnknown
    ensures var r := SendMessage(s, input);
      r.next == Session(FinalQuestion, s.userName) &&
      Link(Portfolio(ClassifyInterest(ToLower(Trim(input))))) in r.out
  {
    var m := Trim(input);
    var interest := ClassifyInterest(ToLower(m));
    EchoesThenDispatches(s, input);
    PortfolioShowsLink(s, m, interest);
    ShownAfterEcho(SendMessage(s, input).out, m, Dispatch(s, m).out, Link(Portfolio(interest)));
  }

  /** An entry the handler shows is in the chat after the echo. */
  lemma ShownAfterEcho(out: seq<Action>, m: string, handled: seq<Action>, a: Action)
    requires out == [UserText(m)] + handled && a in handled
    ensures a in out
  {
  }

  lemma PortfolioShowsLink(s: Session, m: string, interest: Interest)
    requires s.state == AskInterest && ClassifyInterest(ToLower(m)) == interest
    requires interest != InterestBack && interest != InterestUnknown
    ensures |Dispatch(s, m).out| > 2 && Dispatch(s, m).out[2] == Link(Portfolio(interest))
    ensures Link(Portfolio(interest)) in Dispatch(s, m).out
    ensures Dispatch(s, m).next == Session(FinalQuestion, s.userName)
  {
    assert Dispatch(s, m) == ShowPortfolio(s, interest);
    RespondShort(Msg(GreatChoice(interest), 1500, 800), Msg(PortfolioIntro(interest), 800, 500));
  }
}

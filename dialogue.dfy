/** The conversation of the chat widget as a pure function of the session
    (conversation state and visitor name) and the input: each handler of
    script.js becomes a function from the session to the next session and the
    ordered list of things the widget shows. */
module Dialogue {
  import opened Text
  import opened Names
  import opened Keywords

  /** The values of `conversationState`. `Blog` is one of the states
      `sendMessage` dispatches on, but no handler ever assigns it. */
  datatype State =
    | AskName | MainMenu | AskInterest | FinalQuestion | ContactOptions
    | FaqMenu | Feedback | Blog | Inactive | EndConversationConfirmed

  /** The texts the assistant writes. A text that names the visitor, a
      service or a question carries it; [Wording] spells each one out. */
  datatype Phrase =
    | AskForName
    | HowCanIHelp(name: string)
    | OddName
    | NiceToMeet(name: string)
    | Introduction
    | ThanksForChatting(name: string)
    | AtYourService
    | ServicesIntro
    | InterestQuestion
    | FeedbackPrompt
    | GreatChoice(interest: Interest)
    | PortfolioIntro(interest: Interest)
    | KnowMore
    | GladToHelp
    | NotUnderstoodAnswer(name: string)
    | PickOrType
    | NotUnderstoodOption(name: string)
    | PickFromMenu
    | ContactIntro
    | AwaitOnWhatsApp
    | SendEmail
    | AnythingMore
    | CallHenrique
    | ConnectOnLinkedIn
    | FollowOnInstagram
    | FaqIntro
    | Answer(topic: FaqTopic)
    | AnotherQuestion
    | ScheduleIntro(name: string)
    | ScheduleHere
    | AnythingElse
    | FeedbackTooShort
    | FeedbackReceived
    | BlogIntro(name: string)
    | BlogHere
    | GoodToSeeYou(name: string)
    | StillHere(name: string)

  /** The places the assistant links to; [Caption] and [Href] give the
      anchor's text and target. */
  datatype Site =
    | WhatsAppChat | Portfolio(interest: Interest) | EmailAddress | PhoneNumber
    | LinkedInProfile | InstagramProfile | Calendar | BlogHome

  /** One entry of the chat transcript. A bot text carries the typing pause
      shown before it and the delay after it (both 0 for a text added without
      the typing indicator); a link is an anchor to a [Site]. */
  datatype Action =
    | UserText(text: string)
    | BotText(phrase: Phrase, typingDelay: nat, messageDelay: nat)
    | Buttons(captions: seq<string>)
    | Link(site: Site)

  /** One element of the array handed to `botRespond`; a delay of 0 stands for
      an absent property. */
  datatype Msg = Msg(phrase: Phrase, typingDelay: nat, messageDelay: nat)

  datatype Session = Session(state: State, userName: string)

  /** What one event does: the next session and what is appended to the chat. */
  datatype Reply = Reply(next: Session, out: seq<Action>)

  const Initial := Session(AskName, "")

  /** The opening transcript: the greeting the page adds after loading. */
  const InitialTranscript: seq<Action> := [BotText(AskForName, 0, 0)]

  /** The text of each [Phrase], as the page shows it. */
  function Wording(p: Phrase): string {
    match p
    case AskForName => "Olá! Qual é o seu nome?"
    case HowCanIHelp(name) => "Como posso te ajudar hoje, " + name + "?"
    case OddName => "Hmm, esse nome parece um pouco incomum. Por favor, digite um nome válido para eu te conhecer melhor."
    case NiceToMeet(name) => "Prazer em conhecê-lo, " + name + "! :D"
    case Introduction => "Eu sou um assistente virtual criado por Henrique Cassis do HenriqueCassisDev.com"
    case ThanksForChatting(name) => "Entendido! Obrigado por conversar comigo, " + name + "! \U{1F60A}"
    case AtYourService => "Se precisar de algo mais, estou à disposição. Tenha um ótimo dia!"
    case ServicesIntro => "Meu criador é especialista em:"
    case InterestQuestion => "No que você está interessado?"
    case FeedbackPrompt => "Agradeço seu interesse em dar um feedback! Por favor, digite sua sugestão ou comentário:"
    case GreatChoice(i) => "Excelente escolha! Para " + ServiceName(i) + ", o Henrique tem soluções incríveis."
    case PortfolioIntro(i) => "Aqui está o portfólio de " + ServiceName(i) + ":"
    case KnowMore => "Quer saber mais ou falar diretamente?"
    case GladToHelp => "Fico feliz em ajudar! Posso te ajudar com mais alguma coisa?"
    case NotUnderstoodAnswer(name) => "Desculpe " + name + ", não consegui entender sua resposta."
    case PickOrType => "Por favor, selecione uma das opções ou digite uma palavra-chave."
    case NotUnderstoodOption(name) => "Desculpe " + name + ", não entendi a opção."
    case PickFromMenu => "Por favor, selecione uma das opções do menu principal."
    case ContactIntro => "Certo! Você pode entrar em contato com o Henrique pelos seguintes canais:"
    case AwaitOnWhatsApp => "Aguarde o Henrique no WhatsApp! Posso te ajudar com mais algo?"
    case SendEmail => "Envie um e-mail para o Henrique:"
    case AnythingMore => "Posso te ajudar com mais algo?"
    case CallHenrique => "Ligue para o Henrique:"
    case ConnectOnLinkedIn => "Conecte-se com o Henrique no LinkedIn! Posso te ajudar com mais algo?"
    case FollowOnInstagram => "Siga o Henrique no Instagram! Posso te ajudar com mais algo?"
    case FaqIntro => "Tenho algumas respostas para perguntas frequentes que podem te ajudar. Qual a sua dúvida?"
    case Answer(t) => FaqAnswer(t)
    case AnotherQuestion => "Quer saber mais sobre outra pergunta frequente?"
    case ScheduleIntro(name) => "Sim, " + name + "! Agendar uma conversa direta com o Henrique é uma ótima forma de discutir seu projeto em detalhes."
    case ScheduleHere => "Você pode escolher o melhor horário e dia diretamente na agenda dele aqui:"
    case AnythingElse => "Posso te ajudar com mais alguma coisa?"
    case FeedbackTooShort => "Obrigado pelo seu feedback! Para que ele seja mais útil, poderia detalhar um pouco mais?"
    case FeedbackReceived => "Seu feedback foi recebido com sucesso! Agradecemos muito a sua contribuição para melhorar nossos serviços."
    case BlogIntro(name) => "Sim, " + name + "! O Henrique compartilha muito conhecimento no blog dele."
    case BlogHere => "Confira os últimos artigos e dicas sobre desenvolvimento, chatbots e e-commerce:"
    case GoodToSeeYou(name) => "Que bom te ver novamente, " + name + "! Como posso ajudar hoje?"
    case StillHere(name) => "Olá " + name + "! Estou aqui se precisar de algo. Quer continuar a conversa?"
  }

  /** The service named by an [Interest]. */
  function ServiceName(i: Interest): string {
    match i
    case Website => "Website"
    case Chatbot => "Chatbot"
    case ECommerce => "e-Commerce"
    case _ => "Hospedagem"
  }

  function FaqAnswer(t: FaqTopic): string {
    match t
    case Cost => "O custo de um site ou projeto varia muito dependendo da complexidade, recursos e tempo de desenvolvimento. Para um orçamento preciso, sugiro agendar uma conversa com o Henrique!"
    case Deadline => "O prazo de entrega é definido após a análise detalhada do projeto, pois cada solução é personalizada. Em média, um site simples pode levar de 3 a 5 semanas."
    case Maintenance => "Sim, oferecemos serviços de manutenção e suporte contínuo para garantir que seu site ou chatbot esteja sempre atualizado e funcionando perfeitamente."
    case _ => "Aceitamos diversas formas de pagamento, incluindo Pix, transferência bancária e cartões de crédito. Detalhes podem ser combinados diretamente com o Henrique."
  }

  /** The text of a link. The phone number shown is not the one dialled. */
  function Caption(site: Site): string {
    match site
    case WhatsAppChat => "Conversar no WhatsApp"
    case Portfolio(i) => "Ver portfólio de " + ServiceName(i)
    case EmailAddress => "henriquecassisdev@gmail.com"
    case PhoneNumber => "+55 19 99999-9999"
    case LinkedInProfile => "Perfil do LinkedIn"
    case InstagramProfile => "Perfil do Instagram"
    case Calendar => "Agendar Reunião Online"
    case BlogHome => "Acessar o Blog"
  }

  /** The target of a link. */
  function Href(site: Site): string {
    match site
    case WhatsAppChat => "https://wa.me/5519996432877"
    case Portfolio(Website) => "https://henriquecassisdev.com/portfolio-websites"
    case Portfolio(Chatbot) => "https://henriquecassisdev.com/portfolio-chatbots"
    case Portfolio(ECommerce) => "https://henriquecassisdev.com/portfolio-ecommerce"
    case Portfolio(_) => "https://henriquecassisdev.com/hospedagem"
    case EmailAddress => "mailto:henriquecassisdev@gmail.com"
    case PhoneNumber => "tel:+5519996432877"
    case LinkedInProfile => "https://www.linkedin.com/in/henrique-cassis-bb6b0920b/"
    case InstagramProfile => "https://www.instagram.com/henrique.cassis"
    case Calendar => "https://calendly.com/henriquecassisdev"
    case BlogHome => "https://henriquecassisdev.com/blog"
  }

  /** `x || fallback` on a delay. */
  function OrDefault(x: nat, fallback: nat): nat {
    if x == 0 then fallback else x
  }

  /** The entry `botRespond` shows for one message: the typing pause defaults
      to 1000 and the message delay to 500. */
  function Shown(m: Msg): Action {
    BotText(m.phrase, OrDefault(m.typingDelay, 1000), OrDefault(m.messageDelay, 500))
  }

  /** Everything `botRespond(messages)` shows, in order. */
  function Respond(messages: seq<Msg>): (r: seq<Action>)
    ensures |r| == |messages|
    ensures forall i :: 0 <= i < |r| ==> r[i] == Shown(messages[i])
    ensures NoButtons(r)
  {
    seq(|messages|, i requires 0 <= i < |messages| => Shown(messages[i]))
  }

  /** Two `botRespond` calls in a row show what one call with both lists shows. */
  lemma RespondAppend(a: seq<Msg>, b: seq<Msg>)
    ensures Respond(a + b) == Respond(a) + Respond(b)
  {
  }

  /** What `botRespond` shows for one and for two messages. */
  lemma RespondShort(a: Msg, b: Msg)
    ensures Respond([a]) == [Shown(a)]
    ensures Respond([a, b]) == [Shown(a), Shown(b)]
  {
  }

  /** `showOptions(options, question)`: the question (when there is one) and
      then the row of buttons. */
  function Options(captions: seq<string>, question: Option<Phrase>): seq<Action> {
    (if question.Some? then [BotText(question.value, 0, 0)] else []) + [Buttons(captions)]
  }

  /** `userName || 'visitante'`. */
  function DisplayName(name: string): string {
    if name == "" then "visitante" else name
  }

  /** Prepends `prefix` to what `r` shows. */
  function Then(prefix: seq<Action>, r: Reply): (t: Reply)
    requires NoButtons(prefix)
    ensures t.next == r.next && t.out == prefix + r.out
    ensures ButtonsFit(r) ==> ButtonsFit(t)
  {
    Reply(r.next, prefix + r.out)
  }

  /** The states a handler moves to: all but the name step, the `Blog` state
      and the inactive state. */
  predicate Conversing(st: State) {
    st != AskName && st != Blog && st != Inactive
  }

  /** The handlers other than the name step keep the name, and either keep
      the state or move to a [Conversing] one. */
  predicate Keeps(s: Session, r: Reply) {
    r.next.userName == s.userName && (r.next.state == s.state || Conversing(r.next.state))
  }

  /** The buttons `captions` are the ones state `st` offers. */
  predicate Fits(st: State, captions: seq<string>) {
    match st
    case MainMenu => captions == MainMenuCaptions
    case AskInterest => captions == InterestCaptions
    case FinalQuestion =>
      captions == PortfolioFollowUpCaptions || captions == YesNoCaptions || captions == FaqFollowUpCaptions
    case ContactOptions => captions == ContactCaptions
    case FaqMenu => captions == FaqCaptions
    case _ => false
  }

  /** When a reply ends with a row of buttons, they are buttons of the state
      it leaves the conversation in. */
  predicate ButtonsFit(r: Reply) {
    ButtonsLast(r.out)
    && (r.out != [] && r.out[|r.out| - 1].Buttons? ==> Fits(r.next.state, r.out[|r.out| - 1].captions))
  }

  /** A row of buttons, if any, is the last entry shown. */
  predicate ButtonsLast(out: seq<Action>) {
    forall i :: 0 <= i < |out| - 1 ==> !out[i].Buttons?
  }

  /** No row of buttons is shown. */
  predicate NoButtons(out: seq<Action>) {
    forall i :: 0 <= i < |out| ==> !out[i].Buttons?
  }


  /** The two goodbye messages after which the conversation is over. */
  function Goodbye(s: Session): (r: Reply)
    ensures Keeps(s, r) && ButtonsFit(r)
    ensures r.next == Session(EndConversationConfirmed, s.userName)
  {
    Reply(Session(EndConversationConfirmed, s.userName), Respond([
      Msg(ThanksForChatting(s.userName), 1200, 600),
      Msg(AtYourService, 1500, 800)]))
  }

  /** A text, a link, the follow-up question and the yes/no buttons: every
      branch that ends in the closing question with the yes/no buttons. */
  function ToYesNo(s: Session, before: seq<Action>, question: Msg): (r: Reply)
    requires NoButtons(before)
    ensures Keeps(s, r) && ButtonsFit(r)
    ensures r.next == Session(FinalQuestion, s.userName)
  {
    Reply(Session(FinalQuestion, s.userName), before + Respond([question]) + Options(YesNoCaptions, None))
  }

  // ---------------------------------------------------------------------
  // The handlers

  function ShowMainMenu(s: Session): (r: Reply)
    ensures Keeps(s, r) && ButtonsFit(r)
    ensures r.next == Session(MainMenu, s.userName)
    ensures r.out == [BotText(HowCanIHelp(s.userName), 1000, 500), Buttons(MainMenuCaptions)]
  {
    Reply(Session(MainMenu, s.userName),
      Respond([Msg(HowCanIHelp(s.userName), 1000, 500)]) + Options(MainMenuCaptions, None))
  }

  /** The name step: extract and title-case the name; reject it when shorter
      than two code units or holding a digit, otherwise store it, introduce
      the assistant and show the main menu. */
  function HandleNameResponse(s: Session, message: string): (r: Reply)
    ensures ButtonsFit(r)
  {
    var name := ExtractName(message);
    if NameRejected(name) then RejectName(s) else WelcomeName(s, name)
  }

  /** A rejected name: ask again, changing nothing. */
  function RejectName(s: Session): (r: Reply)
    ensures r.next == s && ButtonsFit(r)
  {
    Reply(s, Respond([Msg(OddName, 1200, 600)]))
  }

  /** An accepted name: store it, introduce the assistant, show the main menu. */
  function WelcomeName(s: Session, name: string): (r: Reply)
    ensures r.next == Session(MainMenu, name) && ButtonsFit(r)
  {
    Then(Respond([
      Msg(NiceToMeet(name), 1000, 800),
      Msg(Introduction, 1500, 800)]),
      ShowMainMenu(Session(s.state, name)))
  }

  /** The services branch of the main menu: the list of services as buttons. */
  function ShowServices(s: Session): (r: Reply)
    ensures Keeps(s, r) && ButtonsFit(r)
    ensures r.next == Session(AskInterest, s.userName)
  {
    Reply(Session(AskInterest, s.userName),
      Respond([Msg(ServicesIntro, 800, 500)]) + Options(InterestCaptions, Some(InterestQuestion)))
  }

  /** The feedback branch of the main menu: a prompt, then wait for the text. */
  function AskForFeedback(s: Session): (r: Reply)
    ensures Keeps(s, r) && ButtonsFit(r)
    ensures r.next == Session(Feedback, s.userName)
  {
    Reply(Session(Feedback, s.userName),
      Respond([Msg(FeedbackPrompt, 1000, 500)]))
  }

  function HandleMainMenuChoice(s: Session, choice: string): (r: Reply)
    ensures Keeps(s, r) && ButtonsFit(r)
  {
    match ClassifyMenu(ToLower(choice))
    case Services => ShowServices(s)
    case Contact => ShowContactOptions(s)
    case Faq => ShowFaqMenu(s)
    case Schedule => ShowSchedulingOption(s)
    case BlogPosts => ShowBlogMenu(s)
    case LeaveFeedback => AskForFeedback(s)
    case EndChat => Goodbye(s)
    case MenuUnknown => ShowNotUnderstoodMainMenu(s)
  }

  function HandleInterestResponse(s: Session, message: string): (r: Reply)
    ensures Keeps(s, r) && ButtonsFit(r)
  {
    var interest := ClassifyInterest(ToLower(message));
    match interest
    case InterestBack => ShowMainMenu(s)
    case InterestUnknown => ShowNotUnderstood(s)
    case _ => ShowPortfolio(s, interest)
  }

  /** A chosen service: two texts, the portfolio link, a question and the
      follow-up buttons. */
  function ShowPortfolio(s: Session, interest: Interest): (r: Reply)
    ensures Keeps(s, r) && ButtonsFit(r)
    ensures r.next == Session(FinalQuestion, s.userName)
  {
    Reply(Session(FinalQuestion, s.userName),
      Respond([Msg(GreatChoice(interest), 1500, 800), Msg(PortfolioIntro(interest), 800, 500)])
      + [Link(Portfolio(interest))]
      + Respond([Msg(KnowMore, 800, 500)])
      + Options(PortfolioFollowUpCaptions, None))
  }

  function HandleFinalResponse(s: Session, message: string): (r: Reply)
    ensures Keeps(s, r) && ButtonsFit(r)
  {
    match ClassifyFinal(ToLower(message))
    case TalkOnWhatsApp =>
      ToYesNo(s, [Link(WhatsAppChat)], Msg(GladToHelp, 1000, 500))
    case Yes => ShowMainMenu(s)
    case No => Goodbye(s)
    case FinalUnknown => ShowNotUnderstood(s)
  }

  /** The generic fallback: an apology, then the service buttons again when
      the conversation is choosing a service, else the main menu. */
  function ShowNotUnderstood(s: Session): (r: Reply)
    ensures Keeps(s, r) && ButtonsFit(r)
    ensures r.next == Session(if s.state == AskInterest then AskInterest else MainMenu, s.userName)
  {
    var sorry := Respond([
      Msg(NotUnderstoodAnswer(s.userName), 1000, 500),
      Msg(PickOrType, 1500, 800)]);
    if s.state == AskInterest then Reply(s, sorry + Options(InterestCaptions, Some(InterestQuestion)))
    else Then(sorry, ShowMainMenu(s))
  }

  function ShowNotUnderstoodMainMenu(s: Session): (r: Reply)
    ensures Keeps(s, r) && ButtonsFit(r)
    ensures r.next == Session(MainMenu, s.userName)
  {
    Then(Respond([
      Msg(NotUnderstoodOption(s.userName), 1000, 500),
      Msg(PickFromMenu, 1500, 800)]),
      ShowMainMenu(s))
  }

  function ShowContactOptions(s: Session): (r: Reply)
    ensures Keeps(s, r) && ButtonsFit(r)
    ensures r.next == Session(ContactOptions, s.userName)
  {
    Reply(Session(ContactOptions, s.userName),
      Respond([Msg(ContactIntro, 1000, 500)])
      + Options(ContactCaptions, None))
  }

  function HandleContactOption(s: Session, choice: string): (r: Reply)
    ensures Keeps(s, r) && ButtonsFit(r)
  {
    var channel := ClassifyChannel(ToLower(choice));
    match channel
    case ChannelBack => ShowMainMenu(s)
    case ChannelUnknown => ShowNotUnderstood(s)
    case _ => ShareChannel(s, channel)
  }

  /** A chosen contact channel: its link (after a short text for e-mail and
      phone), then the closing question with the yes/no buttons. */
  function ShareChannel(s: Session, channel: Channel): (r: Reply)
    requires channel != ChannelBack && channel != ChannelUnknown
    ensures Keeps(s, r) && ButtonsFit(r)
    ensures r.next == Session(FinalQuestion, s.userName)
  {
    match channel
    case WhatsApp =>
      ToYesNo(s, [Link(WhatsAppChat)], Msg(AwaitOnWhatsApp, 1000, 0))
    case Email =>
      ToYesNo(s, Respond([Msg(SendEmail, 800, 0)]) + [Link(EmailAddress)], Msg(AnythingMore, 1000, 0))
    case Phone =>
      ToYesNo(s, Respond([Msg(CallHenrique, 800, 0)]) + [Link(PhoneNumber)], Msg(AnythingMore, 1000, 0))
    case LinkedIn =>
      ToYesNo(s, [Link(LinkedInProfile)], Msg(ConnectOnLinkedIn, 1000, 0))
    case Instagram =>
      ToYesNo(s, [Link(InstagramProfile)], Msg(FollowOnInstagram, 1000, 0))
  }

  function ShowFaqMenu(s: Session): (r: Reply)
    ensures Keeps(s, r) && ButtonsFit(r)
    ensures r.next == Session(FaqMenu, s.userName)
  {
    Reply(Session(FaqMenu, s.userName),
      Respond([Msg(FaqIntro, 1200, 600)])
      + Options(FaqCaptions, None))
  }

  /** The answer to a known question, then the follow-up question and its
      buttons (two `botRespond` calls, shown one after the other). */
  function ShowFaqAnswer(s: Session, topic: FaqTopic): (r: Reply)
    ensures Keeps(s, r) && ButtonsFit(r)
    ensures r.next == Session(FinalQuestion, s.userName)
  {
    Reply(Session(FinalQuestion, s.userName),
      Respond([Msg(Answer(topic), 1500, 800), Msg(AnotherQuestion, 1000, 500)])
      + Options(FaqFollowUpCaptions, None))
  }

  function HandleFaqChoice(s: Session, choice: string): (r: Reply)
    ensures Keeps(s, r) && ButtonsFit(r)
  {
    var topic := ClassifyFaq(ToLower(choice));
    match topic
    case FaqBack => ShowMainMenu(s)
    case FaqUnknown => ShowNotUnderstood(s)
    case _ => ShowFaqAnswer(s, topic)
  }

  function ShowSchedulingOption(s: Session): (r: Reply)
    ensures Keeps(s, r) && ButtonsFit(r)
    ensures r.next == Session(FinalQuestion, s.userName)
  {
    ToYesNo(s, Respond([Msg(ScheduleIntro(s.userName), 1500, 800), Msg(ScheduleHere, 1000, 500)])
      + [Link(Calendar)], Msg(AnythingElse, 1000, 500))
  }

  /** Feedback shorter than ten UTF-16 code units is sent back for more
      detail; longer feedback is acknowledged and the main menu shown. */
  function HandleFeedbackInput(s: Session, feedbackMessage: string): (r: Reply)
    ensures Keeps(s, r) && ButtonsFit(r)
    ensures r.next == if Utf16Length(feedbackMessage) < 10 then s else Session(MainMenu, s.userName)
  {
    if Utf16Length(feedbackMessage) < 10 then
      Reply(s, Respond([Msg(FeedbackTooShort, 1200, 600)]))
    else
      Then(Respond([Msg(FeedbackReceived, 1500, 800)]),
        ShowMainMenu(s))
  }

  function ShowBlogMenu(s: Session): (r: Reply)
    ensures Keeps(s, r) && ButtonsFit(r)
    ensures r.next == Session(FinalQuestion, s.userName)
  {
    ToYesNo(s, Respond([Msg(BlogIntro(s.userName), 1200, 600), Msg(BlogHere, 1000, 500)])
      + [Link(BlogHome)], Msg(AnythingElse, 1000, 500))
  }

  // ---------------------------------------------------------------------
  // The two entry points

  /** The welcome-back branch of `sendMessage` for an idle or finished conversation. */
  function WelcomeBack(s: Session): (r: Reply)
    ensures Keeps(s, r) && ButtonsFit(r)
    ensures r.next == Session(MainMenu, s.userName)
  {
    Then(Respond([Msg(GoodToSeeYou(DisplayName(s.userName)), 1000, 500)]),
      ShowMainMenu(s))
  }

  /** The dispatch of `sendMessage` on the current state, for a non-empty
      trimmed message. In the `Blog` state the handler it calls does not
      exist, so nothing follows the visitor's message. */
  function Dispatch(s: Session, message: string): (r: Reply)
    ensures ButtonsFit(r)
  {
    match s.state
    case Inactive => WelcomeBack(s)
    case EndConversationConfirmed => WelcomeBack(s)
    case AskName => HandleNameResponse(s, message)
    case MainMenu => HandleMainMenuChoice(s, message)
    case AskInterest => HandleInterestResponse(s, message)
    case FinalQuestion => HandleFinalResponse(s, message)
    case ContactOptions => HandleContactOption(s, message)
    case FaqMenu => HandleFaqChoice(s, message)
    case Feedback => HandleFeedbackInput(s, message)
    case Blog => Reply(s, [])
  }

  /** `sendMessage`: trim the input; ignore it when empty, otherwise echo it
      and dispatch it. */
  function SendMessage(s: Session, input: string): (r: Reply)
    ensures ButtonsFit(r)
  {
    var message := Trim(input);
    if message == [] then Reply(s, [])
    else
      EchoShowsNoButtons(message);
      Then([UserText(message)], Dispatch(s, message))
  }

  lemma EchoShowsNoButtons(message: string)
    ensures NoButtons([UserText(message)])
  {
  }

  /** The inactivity callback: unless the conversation has ended, ask whether
      the visitor wants to go on and mark the conversation inactive. */
  function Timeout(s: Session): (r: Reply)
    ensures ButtonsFit(r)
    ensures r.next.userName == s.userName
    ensures s.state == EndConversationConfirmed ==> r == Reply(s, [])
    ensures s.state != EndConversationConfirmed ==> r.next.state == Inactive && |r.out| == 1 && r.out[0].BotText?
  {
    if s.state == EndConversationConfirmed then Reply(s, [])
    else Reply(Session(Inactive, s.userName),
      Respond([Msg(StillHere(DisplayName(s.userName)), 1500, 800)]))
  }

  /** What drives the conversation: a submitted text (typed or a pressed
      button) or the inactivity timer firing. */
  datatype Event = Submit(text: string) | Idle

  function Step(s: Session, e: Event): Reply {
    match e
    case Submit(text) => SendMessage(s, text)
    case Idle => Timeout(s)
  }

  /** The session after a sequence of events. */
  function Run(s: Session, events: seq<Event>): Session
    decreases |events|
  {
    if events == [] then s else Run(Step(s, events[0]).next, events[1..])
  }
}

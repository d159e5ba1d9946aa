/** The keyword tests of the five input handlers of script.js. Each handler
    lower-cases the message and walks an if-chain of `includes` tests; the
    first group of keywords with a hit decides the branch. The buttons each
    state offers are listed here too, with the proof that pressing a button
    reaches the branch its caption names. */
module Keywords {
  import opened Text

  /** `s.includes(k1) || s.includes(k2) || ...` over the keywords of `keys`. */
  predicate ContainsAny(s: string, keys: seq<string>) {
    exists k :: k in keys && Contains(s, k)
  }

  lemma ContainsAnyAppend(s: string, a: seq<string>, b: seq<string>)
    ensures ContainsAny(s, a + b) <==> ContainsAny(s, a) || ContainsAny(s, b)
  {
    if ContainsAny(s, a + b) {
      var k :| k in a + b && Contains(s, k);
      assert k in a || k in b;
    }
    if ContainsAny(s, a) {
      var k :| k in a && Contains(s, k);
      assert k in a + b;
    }
    if ContainsAny(s, b) {
      var k :| k in b && Contains(s, k);
      assert k in a + b;
    }
  }

  // ---------------------------------------------------------------------
  // Tools for the proofs about concrete captions

  lemma LowerTo(s: string, t: string)
    requires |s| == |t| && forall i :: 0 <= i < |s| ==> LowerChar(s[i]) == t[i]
    ensures ToLower(s) == t
  {
  }

  /** Keyword `keys[j]` occurs in `s` at index `i`, character by character. */
  lemma Hit(s: string, keys: seq<string>, j: nat, i: nat)
    requires j < |keys| && i + |keys[j]| <= |s|
    requires forall m :: 0 <= m < |keys[j]| ==> s[i + m] == keys[j][m]
    ensures ContainsAny(s, keys)
  {
    var k := keys[j];
    assert s[i..i + |k|] == k;
    assert k in keys && OccursAt(s, k, i);
  }

  lemma MissEach(s: string, keys: seq<string>)
    requires forall j :: 0 <= j < |keys| ==> !Contains(s, keys[j])
    ensures !ContainsAny(s, keys)
  {
    forall k | k in keys ensures !Contains(s, k) {
      var j :| 0 <= j < |keys| && keys[j] == k;
    }
  }

  /** No keyword of `keys` occurs in `s` when each keyword holds a character
      (`missing[j]` for `keys[j]`) that `s` lacks. */
  lemma MissAll(s: string, keys: seq<string>, missing: string)
    requires |missing| == |keys|
    requires forall j :: 0 <= j < |keys| ==> missing[j] in keys[j] && missing[j] !in s
    ensures !ContainsAny(s, keys)
  {
    forall j | 0 <= j < |keys| ensures !Contains(s, keys[j]) {
      NotContainsByChar(s, keys[j], missing[j]);
    }
    MissEach(s, keys);
  }

  /** A keyword holding two adjacent characters that are never adjacent in `s`
      does not occur in `s`. */
  lemma NotContainsByPair(s: string, k: string, j: nat)
    requires j + 1 < |k|
    requires forall i :: 0 <= i < |s| - 1 ==> !(s[i] == k[j] && s[i + 1] == k[j + 1])
    ensures !Contains(s, k)
  {
    forall i: nat | i <= |s| ensures !OccursAt(s, k, i) {
      if i + |k| <= |s| {
        var a := s[i..i + |k|];
        assert a[j] == s[i + j] && a[j + 1] == s[i + j + 1];
      }
    }
  }

  // ---------------------------------------------------------------------
  // The main menu

  /** The branch `handleMainMenuChoice` takes. */
  datatype MenuChoice = Services | Contact | Faq | Schedule | BlogPosts | LeaveFeedback | EndChat | MenuUnknown

  const ServicesKeys: seq<string> := ["serviços"]
  const ContactKeys: seq<string> := ["contato"]
  const FaqKeys: seq<string> := ["perguntas frequentes", "faq"]
  const ScheduleKeys: seq<string> := ["agendar reuniã", "reunião", "chamada"]
  const BlogKeys: seq<string> := ["blog", "conteúdo"]
  const FeedbackKeys: seq<string> := ["feedback", "sugestão"]
  const EndKeys: seq<string> := ["encerrar", "finalizar", "sair"]

  function ClassifyMenu(lower: string): MenuChoice {
    if ContainsAny(lower, ServicesKeys) then Services
    else if ContainsAny(lower, ContactKeys) then Contact
    else if ContainsAny(lower, FaqKeys) then Faq
    else if ContainsAny(lower, ScheduleKeys) then Schedule
    else if ContainsAny(lower, BlogKeys) then BlogPosts
    else if ContainsAny(lower, FeedbackKeys) then LeaveFeedback
    else if ContainsAny(lower, EndKeys) then EndChat
    else MenuUnknown
  }

  /** Every keyword ClassifyMenu looks for, in the order it tries them. */
  const MenuKeywords: seq<string> := ServicesKeys + ContactKeys + FaqKeys + ScheduleKeys + BlogKeys + FeedbackKeys + EndKeys

  /** Nothing is recognised exactly when none of the keywords occurs. */
  lemma MenuUnknownIff(lower: string)
    ensures ClassifyMenu(lower) == MenuUnknown <==> !ContainsAny(lower, MenuKeywords)
  {
    ContainsAnyAppend(lower, ServicesKeys, ContactKeys + FaqKeys + ScheduleKeys + BlogKeys + FeedbackKeys + EndKeys);
    ContainsAnyAppend(lower, ContactKeys, FaqKeys + ScheduleKeys + BlogKeys + FeedbackKeys + EndKeys);
    ContainsAnyAppend(lower, FaqKeys, ScheduleKeys + BlogKeys + FeedbackKeys + EndKeys);
    ContainsAnyAppend(lower, ScheduleKeys, BlogKeys + FeedbackKeys + EndKeys);
    ContainsAnyAppend(lower, BlogKeys, FeedbackKeys + EndKeys);
    ContainsAnyAppend(lower, FeedbackKeys, EndKeys);
  }

  // ---------------------------------------------------------------------
  // The service of interest

  /** The branch `handleInterestResponse` takes. */
  datatype Interest = Website | Chatbot | ECommerce | Hosting | InterestBack | InterestUnknown

  const WebsiteKeys: seq<string> := ["web", "site"]
  const ChatbotKeys: seq<string> := ["chatbot"]
  const ECommerceKeys: seq<string> := ["e-com", "loja"]
  const HostingKeys: seq<string> := ["hosped"]
  const BackKeys: seq<string> := ["voltar ao menu principal"]

  function ClassifyInterest(lower: string): Interest {
    if ContainsAny(lower, WebsiteKeys) then Website
    else if ContainsAny(lower, ChatbotKeys) then Chatbot
    else if ContainsAny(lower, ECommerceKeys) then ECommerce
    else if ContainsAny(lower, HostingKeys) then Hosting
    else if ContainsAny(lower, BackKeys) then InterestBack
    else InterestUnknown
  }

  /** Every keyword ClassifyInterest looks for, in the order it tries them. */
  const InterestKeywords: seq<string> := WebsiteKeys + ChatbotKeys + ECommerceKeys + HostingKeys + BackKeys

  /** Nothing is recognised exactly when none of the keywords occurs. */
  lemma InterestUnknownIff(lower: string)
    ensures ClassifyInterest(lower) == InterestUnknown <==> !ContainsAny(lower, InterestKeywords)
  {
    ContainsAnyAppend(lower, WebsiteKeys, ChatbotKeys + ECommerceKeys + HostingKeys + BackKeys);
    ContainsAnyAppend(lower, ChatbotKeys, ECommerceKeys + HostingKeys + BackKeys);
    ContainsAnyAppend(lower, ECommerceKeys, HostingKeys + BackKeys);
    ContainsAnyAppend(lower, HostingKeys, BackKeys);
  }

  // ---------------------------------------------------------------------
  // The closing question

  /** The branch `handleFinalResponse` takes. */
  datatype FinalAnswer = TalkOnWhatsApp | Yes | No | FinalUnknown

  const TalkKeys: seq<string> := ["whatsapp", "falar"]
  const YesKeys: seq<string> := ["sim", "quero"]
  const NoKeys: seq<string> := ["não", "obrigado", "voltar ao menu principal"]

  function ClassifyFinal(lower: string): FinalAnswer {
    if ContainsAny(lower, TalkKeys) then TalkOnWhatsApp
    else if ContainsAny(lower, YesKeys) then Yes
    else if ContainsAny(lower, NoKeys) then No
    else FinalUnknown
  }

  /** Every keyword ClassifyFinal looks for, in the order it tries them. */
  const FinalKeywords: seq<string> := TalkKeys + YesKeys + NoKeys

  /** Nothing is recognised exactly when none of the keywords occurs. */
  lemma FinalUnknownIff(lower: string)
    ensures ClassifyFinal(lower) == FinalUnknown <==> !ContainsAny(lower, FinalKeywords)
  {
    ContainsAnyAppend(lower, TalkKeys, YesKeys + NoKeys);
    ContainsAnyAppend(lower, YesKeys, NoKeys);
  }

  // ---------------------------------------------------------------------
  // The contact channel

  /** The branch `handleContactOption` takes. */
  datatype Channel = WhatsApp | Email | Phone | LinkedIn | Instagram | ChannelBack | ChannelUnknown

  const WhatsAppKeys: seq<string> := ["whatsapp"]
  const EmailKeys: seq<string> := ["e-mail", "email"]
  const PhoneKeys: seq<string> := ["telefone"]
  const LinkedInKeys: seq<string> := ["linkedin"]
  const InstagramKeys: seq<string> := ["instagram"]

  function ClassifyChannel(lower: string): Channel {
    if ContainsAny(lower, WhatsAppKeys) then WhatsApp
    else if ContainsAny(lower, EmailKeys) then Email
    else if ContainsAny(lower, PhoneKeys) then Phone
    else if ContainsAny(lower, LinkedInKeys) then LinkedIn
    else if ContainsAny(lower, InstagramKeys) then Instagram
    else if ContainsAny(lower, BackKeys) then ChannelBack
    else ChannelUnknown
  }

  /** Every keyword ClassifyChannel looks for, in the order it tries them. */
  const ChannelKeywords: seq<string> := WhatsAppKeys + EmailKeys + PhoneKeys + LinkedInKeys + InstagramKeys + BackKeys

  /** Nothing is recognised exactly when none of the keywords occurs. */
  lemma ChannelUnknownIff(lower: string)
    ensures ClassifyChannel(lower) == ChannelUnknown <==> !ContainsAny(lower, ChannelKeywords)
  {
    ContainsAnyAppend(lower, WhatsAppKeys, EmailKeys + PhoneKeys + LinkedInKeys + InstagramKeys + BackKeys);
    ContainsAnyAppend(lower, EmailKeys, PhoneKeys + LinkedInKeys + InstagramKeys + BackKeys);
    ContainsAnyAppend(lower, PhoneKeys, LinkedInKeys + InstagramKeys + BackKeys);
    ContainsAnyAppend(lower, LinkedInKeys, InstagramKeys + BackKeys);
    ContainsAnyAppend(lower, InstagramKeys, BackKeys);
  }

  // ---------------------------------------------------------------------
  // The frequently asked questions

  /** The branch `handleFaqChoice` takes. */
  datatype FaqTopic = Cost | Deadline | Maintenance | Payment | FaqBack | FaqUnknown

  const CostKeys: seq<string> := ["quanto custa", "custo"]
  const DeadlineKeys: seq<string> := ["prazo de entrega", "prazo"]
  const MaintenanceKeys: seq<string> := ["manutenção"]
  const PaymentKeys: seq<string> := ["formas de pagamento", "pagamento"]

  function ClassifyFaq(lower: string): FaqTopic {
    if ContainsAny(lower, CostKeys) then Cost
    else if ContainsAny(lower, DeadlineKeys) then Deadline
    else if ContainsAny(lower, MaintenanceKeys) then Maintenance
    else if ContainsAny(lower, PaymentKeys) then Payment
    else if ContainsAny(lower, BackKeys) then FaqBack
    else FaqUnknown
  }

  /** Every keyword ClassifyFaq looks for, in the order it tries them. */
  const FaqKeywords: seq<string> := CostKeys + DeadlineKeys + MaintenanceKeys + PaymentKeys + BackKeys

  /** Nothing is recognised exactly when none of the keywords occurs. */
  lemma FaqUnknownIff(lower: string)
    ensures ClassifyFaq(lower) == FaqUnknown <==> !ContainsAny(lower, FaqKeywords)
  {
    ContainsAnyAppend(lower, CostKeys, DeadlineKeys + MaintenanceKeys + PaymentKeys + BackKeys);
    ContainsAnyAppend(lower, DeadlineKeys, MaintenanceKeys + PaymentKeys + BackKeys);
    ContainsAnyAppend(lower, MaintenanceKeys, PaymentKeys + BackKeys);
    ContainsAnyAppend(lower, PaymentKeys, BackKeys);
  }

  /** The buttons of `showMainMenu`. */
  const MainMenuCaptions: seq<string> := ["Serviços", "Contato", "Perguntas Frequentes (FAQ)", "Agendar Reunião", "Blog", "Deixar um Feedback", "Encerrar Conversa"]

  lemma MenuCaptionServicos(lower: string)
    requires lower == "serviços"
    ensures ClassifyMenu(lower) == Services
  {
    Hit(lower, ServicesKeys, 0, 0);
  }

  lemma MenuCaptionContato(lower: string)
    requires lower == "contato"
    ensures ClassifyMenu(lower) == Contact
  {
    MissAll(lower, ServicesKeys, "s");
    Hit(lower, ContactKeys, 0, 0);
  }

  lemma MenuCaptionPerguntasFrequentesFAQ(lower: string)
    requires lower == "perguntas frequentes (faq)"
    ensures ClassifyMenu(lower) == Faq
  {
    MissAll(lower, ServicesKeys, "v");
    MissAll(lower, ContactKeys, "c");
    Hit(lower, FaqKeys, 0, 0);
  }

  lemma MenuCaptionAgendarReuniao(lower: string)
    requires lower == "agendar reunião"
    ensures ClassifyMenu(lower) == Schedule
  {
    MissAll(lower, ServicesKeys, "s");
    MissAll(lower, ContactKeys, "c");
    MissAll(lower, FaqKeys, "pf");
    Hit(lower, ScheduleKeys, 0, 0);
  }

  lemma MenuCaptionBlog(lower: string)
    requires lower == "blog"
    ensures ClassifyMenu(lower) == BlogPosts
  {
    MissAll(lower, ServicesKeys, "s");
    MissAll(lower, ContactKeys, "c");
    MissAll(lower, FaqKeys, "pf");
    MissAll(lower, ScheduleKeys, "arc");
    Hit(lower, BlogKeys, 0, 0);
  }

  lemma MenuCaptionDeixarUmFeedbackMisses(lower: string)
    requires lower == "deixar um feedback"
    ensures !ContainsAny(lower, ServicesKeys) && !ContainsAny(lower, ContactKeys) && !ContainsAny(lower, FaqKeys)
  {
    MissAll(lower, ServicesKeys, "s");
    MissAll(lower, ContactKeys, "o");
    MissAll(lower, FaqKeys, "pq");
  }

  lemma MenuCaptionDeixarUmFeedback(lower: string)
    requires lower == "deixar um feedback"
    ensures ClassifyMenu(lower) == LeaveFeedback
  {
    MenuCaptionDeixarUmFeedbackMisses(lower);
    MissAll(lower, ScheduleKeys, "gnh");
    MissAll(lower, BlogKeys, "lo");
    Hit(lower, FeedbackKeys, 0, 10);
  }

  lemma MenuCaptionEncerrarConversaMisses(lower: string)
    requires lower == "encerrar conversa"
    ensures !ContainsAny(lower, ServicesKeys) && !ContainsAny(lower, ContactKeys) && !ContainsAny(lower, FaqKeys)
  {
    MissAll(lower, ServicesKeys, "i");
    MissAll(lower, ContactKeys, "t");
    MissAll(lower, FaqKeys, "pf");
  }

  lemma MenuCaptionEncerrarConversa(lower: string)
    requires lower == "encerrar conversa"
    ensures ClassifyMenu(lower) == EndChat
  {
    MenuCaptionEncerrarConversaMisses(lower);
    MissAll(lower, ScheduleKeys, "guh");
    MissAll(lower, BlogKeys, "bt");
    MissAll(lower, FeedbackKeys, "fu");
    Hit(lower, EndKeys, 0, 0);
  }

  // ---------------------------------------------------------------------
  // The buttons, and the branch each caption reaches

  /** Pressing a main-menu button reaches the branch its caption names. */
  lemma MainMenuCaptionsRoute(i: nat)
    requires i < |MainMenuCaptions|
    ensures ClassifyMenu(ToLower(MainMenuCaptions[i])) == [Services, Contact, Faq, Schedule, BlogPosts, LeaveFeedback, EndChat][i]
  {
    if i < 4 {
      MainMenuCaptionsRouteFirst(i);
    } else {
      MainMenuCaptionsRouteLast(i);
    }
  }

  lemma MainMenuCaptionsRouteFirst(i: nat)
    requires i < 4
    ensures ClassifyMenu(ToLower(MainMenuCaptions[i])) == [Services, Contact, Faq, Schedule][i]
  {
    if i == 0 {
      LowerTo(MainMenuCaptions[0], "serviços");
      MenuCaptionServicos(ToLower(MainMenuCaptions[0]));
    }
    else if i == 1 {
      LowerTo(MainMenuCaptions[1], "contato");
      MenuCaptionContato(ToLower(MainMenuCaptions[1]));
    }
    else if i == 2 {
      LowerTo(MainMenuCaptions[2], "perguntas frequentes (faq)");
      MenuCaptionPerguntasFrequentesFAQ(ToLower(MainMenuCaptions[2]));
    }
    else if i == 3 {
      LowerTo(MainMenuCaptions[3], "agendar reunião");
      MenuCaptionAgendarReuniao(ToLower(MainMenuCaptions[3]));
    }
  }

  lemma MainMenuCaptionsRouteLast(i: nat)
    requires 4 <= i < |MainMenuCaptions|
    ensures ClassifyMenu(ToLower(MainMenuCaptions[i])) == [BlogPosts, LeaveFeedback, EndChat][i - 4]
  {
    if i == 4 {
      LowerTo(MainMenuCaptions[4], "blog");
      MenuCaptionBlog(ToLower(MainMenuCaptions[4]));
    }
    else if i == 5 {
      LowerTo(MainMenuCaptions[5], "deixar um feedback");
      MenuCaptionDeixarUmFeedback(ToLower(MainMenuCaptions[5]));
    }
    else if i == 6 {
      LowerTo(MainMenuCaptions[6], "encerrar conversa");
      MenuCaptionEncerrarConversa(ToLower(MainMenuCaptions[6]));
    }
  }

  /** The service buttons, shown after the main-menu choice of services and
      again after an answer the service step does not recognise. */
  const InterestCaptions: seq<string> := ["Website", "Chatbot", "e-Commerce", "Hospedagem", "Voltar ao menu principal"]

  lemma InterestCaptionWebsite(lower: string)
    requires lower == "website"
    ensures ClassifyInterest(lower) == Website
  {
    Hit(lower, WebsiteKeys, 0, 0);
  }

  lemma InterestCaptionChatbot(lower: string)
    requires lower == "chatbot"
    ensures ClassifyInterest(lower) == Chatbot
  {
    MissAll(lower, WebsiteKeys, "ws");
    Hit(lower, ChatbotKeys, 0, 0);
  }

  lemma InterestCaptionECommerce(lower: string)
    requires lower == "e-commerce"
    ensures ClassifyInterest(lower) == ECommerce
  {
    MissAll(lower, WebsiteKeys, "ws");
    MissAll(lower, ChatbotKeys, "h");
    Hit(lower, ECommerceKeys, 0, 0);
  }

  lemma InterestCaptionHospedagem(lower: string)
    requires lower == "hospedagem"
    ensures ClassifyInterest(lower) == Hosting
  {
    MissAll(lower, WebsiteKeys, "wi");
    MissAll(lower, ChatbotKeys, "c");
    MissAll(lower, ECommerceKeys, "-l");
    Hit(lower, HostingKeys, 0, 0);
  }

  lemma InterestCaptionVoltarAoMenuPrincipalMisses(lower: string)
    requires lower == "voltar ao menu principal"
    ensures !ContainsAny(lower, WebsiteKeys) && !ContainsAny(lower, ChatbotKeys)
  {
    MissAll(lower, WebsiteKeys, "ws");
    MissAll(lower, ChatbotKeys, "h");
  }

  lemma InterestCaptionVoltarAoMenuPrincipal(lower: string)
    requires lower == "voltar ao menu principal"
    ensures ClassifyInterest(lower) == InterestBack
  {
    InterestCaptionVoltarAoMenuPrincipalMisses(lower);
    MissAll(lower, ECommerceKeys, "-j");
    MissAll(lower, HostingKeys, "h");
    Hit(lower, BackKeys, 0, 0);
  }

  /** Pressing a service button reaches that service, or the way back. */
  lemma InterestCaptionsRoute(i: nat)
    requires i < |InterestCaptions|
    ensures ClassifyInterest(ToLower(InterestCaptions[i])) == [Website, Chatbot, ECommerce, Hosting, InterestBack][i]
  {
    if i == 0 {
      LowerTo(InterestCaptions[0], "website");
      InterestCaptionWebsite(ToLower(InterestCaptions[0]));
    }
    else if i == 1 {
      LowerTo(InterestCaptions[1], "chatbot");
      InterestCaptionChatbot(ToLower(InterestCaptions[1]));
    }
    else if i == 2 {
      LowerTo(InterestCaptions[2], "e-commerce");
      InterestCaptionECommerce(ToLower(InterestCaptions[2]));
    }
    else if i == 3 {
      LowerTo(InterestCaptions[3], "hospedagem");
      InterestCaptionHospedagem(ToLower(InterestCaptions[3]));
    }
    else if i == 4 {
      LowerTo(InterestCaptions[4], "voltar ao menu principal");
      InterestCaptionVoltarAoMenuPrincipal(ToLower(InterestCaptions[4]));
    }
  }

  /** The buttons after a portfolio link. */
  const PortfolioFollowUpCaptions: seq<string> := ["Falar no WhatsApp", "Voltar ao menu principal"]

  lemma FinalCaptionFalarNoWhatsApp(lower: string)
    requires lower == "falar no whatsapp"
    ensures ClassifyFinal(lower) == TalkOnWhatsApp
  {
    Hit(lower, TalkKeys, 0, 9);
  }

  lemma FinalCaptionVoltarAoMenuPrincipal(lower: string)
    requires lower == "voltar ao menu principal"
    ensures ClassifyFinal(lower) == No
  {
    MissAll(lower, TalkKeys, "wf");
    MissAll(lower, YesKeys, "sq");
    Hit(lower, NoKeys, 2, 0);
  }

  /** The buttons after a portfolio link: WhatsApp, or the caption
      "Voltar ao menu principal", which the closing question treats as a no. */
  lemma PortfolioFollowUpRoute(i: nat)
    requires i < |PortfolioFollowUpCaptions|
    ensures ClassifyFinal(ToLower(PortfolioFollowUpCaptions[i])) == [TalkOnWhatsApp, No][i]
  {
    if i == 0 {
      LowerTo(PortfolioFollowUpCaptions[0], "falar no whatsapp");
      FinalCaptionFalarNoWhatsApp(ToLower(PortfolioFollowUpCaptions[0]));
    }
    else if i == 1 {
      LowerTo(PortfolioFollowUpCaptions[1], "voltar ao menu principal");
      FinalCaptionVoltarAoMenuPrincipal(ToLower(PortfolioFollowUpCaptions[1]));
    }
  }

  /** The buttons after a contact channel, the scheduling link, the blog link
      or the WhatsApp link of the closing question. */
  const YesNoCaptions: seq<string> := ["Sim", "Não"]

  lemma FinalCaptionSim(lower: string)
    requires lower == "sim"
    ensures ClassifyFinal(lower) == Yes
  {
    MissAll(lower, TalkKeys, "wf");
    Hit(lower, YesKeys, 0, 0);
  }

  lemma FinalCaptionNao(lower: string)
    requires lower == "não"
    ensures ClassifyFinal(lower) == No
  {
    MissAll(lower, TalkKeys, "wf");
    MissAll(lower, YesKeys, "sq");
    Hit(lower, NoKeys, 0, 0);
  }

  /** The yes/no buttons of the closing question. */
  lemma YesNoRoute(i: nat)
    requires i < |YesNoCaptions|
    ensures ClassifyFinal(ToLower(YesNoCaptions[i])) == [Yes, No][i]
  {
    if i == 0 {
      LowerTo(YesNoCaptions[0], "sim");
      FinalCaptionSim(ToLower(YesNoCaptions[0]));
    }
    else if i == 1 {
      LowerTo(YesNoCaptions[1], "não");
      FinalCaptionNao(ToLower(YesNoCaptions[1]));
    }
  }

  /** The buttons after an FAQ answer. */
  const FaqFollowUpCaptions: seq<string> := ["Sim", "Não", "Voltar ao menu principal"]

  /** The buttons after an FAQ answer; "Voltar ao menu principal" counts as a no. */
  lemma FaqFollowUpRoute(i: nat)
    requires i < |FaqFollowUpCaptions|
    ensures ClassifyFinal(ToLower(FaqFollowUpCaptions[i])) == [Yes, No, No][i]
  {
    if i == 0 {
      LowerTo(FaqFollowUpCaptions[0], "sim");
      FinalCaptionSim(ToLower(FaqFollowUpCaptions[0]));
    }
    else if i == 1 {
      LowerTo(FaqFollowUpCaptions[1], "não");
      FinalCaptionNao(ToLower(FaqFollowUpCaptions[1]));
    }
    else if i == 2 {
      LowerTo(FaqFollowUpCaptions[2], "voltar ao menu principal");
      FinalCaptionVoltarAoMenuPrincipal(ToLower(FaqFollowUpCaptions[2]));
    }
  }

  /** The buttons of `showContactOptions`. */
  const ContactCaptions: seq<string> := ["WhatsApp", "E-mail", "Telefone", "LinkedIn", "Instagram", "Voltar ao menu principal"]

  lemma ChannelCaptionWhatsApp(lower: string)
    requires lower == "whatsapp"
    ensures ClassifyChannel(lower) == WhatsApp
  {
    Hit(lower, WhatsAppKeys, 0, 0);
  }

  lemma ChannelCaptionEMail(lower: string)
    requires lower == "e-mail"
    ensures ClassifyChannel(lower) == Email
  {
    MissAll(lower, WhatsAppKeys, "w");
    Hit(lower, EmailKeys, 0, 0);
  }

  lemma ChannelCaptionTelefone(lower: string)
    requires lower == "telefone"
    ensures ClassifyChannel(lower) == Phone
  {
    MissAll(lower, WhatsAppKeys, "w");
    MissAll(lower, EmailKeys, "-m");
    Hit(lower, PhoneKeys, 0, 0);
  }

  lemma ChannelCaptionLinkedIn(lower: string)
    requires lower == "linkedin"
    ensures ClassifyChannel(lower) == LinkedIn
  {
    MissAll(lower, WhatsAppKeys, "w");
    MissAll(lower, EmailKeys, "-m");
    MissAll(lower, PhoneKeys, "t");
    Hit(lower, LinkedInKeys, 0, 0);
  }

  lemma ChannelCaptionInstagram(lower: string)
    requires lower == "instagram"
    ensures ClassifyChannel(lower) == Instagram
  {
    MissAll(lower, WhatsAppKeys, "w");
    MissAll(lower, EmailKeys, "ee");
    MissAll(lower, PhoneKeys, "e");
    MissAll(lower, LinkedInKeys, "l");
    Hit(lower, InstagramKeys, 0, 0);
  }

  lemma ChannelCaptionVoltarAoMenuPrincipalMisses(lower: string)
    requires lower == "voltar ao menu principal"
    ensures !ContainsAny(lower, WhatsAppKeys) && !ContainsAny(lower, EmailKeys)
  {
    MissAll(lower, WhatsAppKeys, "w");
    NotContainsByChar(lower, EmailKeys[0], '-');
    NotContainsByPair(lower, EmailKeys[1], 0);
    MissEach(lower, EmailKeys);
  }

  lemma ChannelCaptionVoltarAoMenuPrincipal(lower: string)
    requires lower == "voltar ao menu principal"
    ensures ClassifyChannel(lower) == ChannelBack
  {
    ChannelCaptionVoltarAoMenuPrincipalMisses(lower);
    MissAll(lower, PhoneKeys, "f");
    MissAll(lower, LinkedInKeys, "k");
    MissAll(lower, InstagramKeys, "s");
    Hit(lower, BackKeys, 0, 0);
  }

  /** Pressing a contact button reaches its channel, or the way back. */
  lemma ContactCaptionsRoute(i: nat)
    requires i < |ContactCaptions|
    ensures ClassifyChannel(ToLower(ContactCaptions[i])) == [WhatsApp, Email, Phone, LinkedIn, Instagram, ChannelBack][i]
  {
    if i == 0 {
      LowerTo(ContactCaptions[0], "whatsapp");
      ChannelCaptionWhatsApp(ToLower(ContactCaptions[0]));
    }
    else if i == 1 {
      LowerTo(ContactCaptions[1], "e-mail");
      ChannelCaptionEMail(ToLower(ContactCaptions[1]));
    }
    else if i == 2 {
      LowerTo(ContactCaptions[2], "telefone");
      ChannelCaptionTelefone(ToLower(ContactCaptions[2]));
    }
    else if i == 3 {
      LowerTo(ContactCaptions[3], "linkedin");
      ChannelCaptionLinkedIn(ToLower(ContactCaptions[3]));
    }
    else if i == 4 {
      LowerTo(ContactCaptions[4], "instagram");
      ChannelCaptionInstagram(ToLower(ContactCaptions[4]));
    }
    else if i == 5 {
      LowerTo(ContactCaptions[5], "voltar ao menu principal");
      ChannelCaptionVoltarAoMenuPrincipal(ToLower(ContactCaptions[5]));
    }
  }

  /** The buttons of `showFaqMenu`. */
  const FaqCaptions: seq<string> := ["Quanto custa um site?", "Qual o prazo de entrega?", "Vocês fazem manutenção?", "Formas de pagamento?", "Voltar ao menu principal"]

  lemma FaqCaptionQuantoCustaUmSite(lower: string)
    requires lower == "quanto custa um site?"
    ensures ClassifyFaq(lower) == Cost
  {
    Hit(lower, CostKeys, 0, 0);
  }

  lemma FaqCaptionQualOPrazoDeEntrega(lower: string)
    requires lower == "qual o prazo de entrega?"
    ensures ClassifyFaq(lower) == Deadline
  {
    MissAll(lower, CostKeys, "cc");
    Hit(lower, DeadlineKeys, 0, 7);
  }

  lemma FaqCaptionVocesFazemManutencaoMisses(lower: string)
    requires lower == "vocês fazem manutenção?"
    ensures !ContainsAny(lower, CostKeys)
  {
    NotContainsByChar(lower, CostKeys[0], 'q');
    NotContainsByPair(lower, CostKeys[1], 0);
    MissEach(lower, CostKeys);
  }

  lemma FaqCaptionVocesFazemManutencao(lower: string)
    requires lower == "vocês fazem manutenção?"
    ensures ClassifyFaq(lower) == Maintenance
  {
    FaqCaptionVocesFazemManutencaoMisses(lower);
    MissAll(lower, DeadlineKeys, "pp");
    Hit(lower, MaintenanceKeys, 0, 12);
  }

  lemma FaqCaptionFormasDePagamento(lower: string)
    requires lower == "formas de pagamento?"
    ensures ClassifyFaq(lower) == Payment
  {
    MissAll(lower, CostKeys, "qc");
    MissAll(lower, DeadlineKeys, "zz");
    MissAll(lower, MaintenanceKeys, "u");
    Hit(lower, PaymentKeys, 0, 0);
  }

  lemma FaqCaptionVoltarAoMenuPrincipalMisses(lower: string)
    requires lower == "voltar ao menu principal"
    ensures !ContainsAny(lower, CostKeys) && !ContainsAny(lower, DeadlineKeys)
  {
    MissAll(lower, CostKeys, "qs");
    MissAll(lower, DeadlineKeys, "zz");
  }

  lemma FaqCaptionVoltarAoMenuPrincipal(lower: string)
    requires lower == "voltar ao menu principal"
    ensures ClassifyFaq(lower) == FaqBack
  {
    FaqCaptionVoltarAoMenuPrincipalMisses(lower);
    MissAll(lower, MaintenanceKeys, "ç");
    MissAll(lower, PaymentKeys, "fg");
    Hit(lower, BackKeys, 0, 0);
  }

  /** Pressing an FAQ button reaches its answer, or the way back. */
  lemma FaqCaptionsRoute(i: nat)
    requires i < |FaqCaptions|
    ensures ClassifyFaq(ToLower(FaqCaptions[i])) == [Cost, Deadline, Maintenance, Payment, FaqBack][i]
  {
    if i < 2 {
      FaqCaptionsRouteFirst(i);
    } else {
      FaqCaptionsRouteLast(i);
    }
  }

  lemma FaqCaptionsRouteFirst(i: nat)
    requires i < 2
    ensures ClassifyFaq(ToLower(FaqCaptions[i])) == [Cost, Deadline][i]
  {
    if i == 0 {
      LowerTo(FaqCaptions[0], "quanto custa um site?");
      FaqCaptionQuantoCustaUmSite(ToLower(FaqCaptions[0]));
    }
    else if i == 1 {
      LowerTo(FaqCaptions[1], "qual o prazo de entrega?");
      FaqCaptionQualOPrazoDeEntrega(ToLower(FaqCaptions[1]));
    }
  }

  lemma FaqCaptionsRouteLast(i: nat)
    requires 2 <= i < |FaqCaptions|
    ensures ClassifyFaq(ToLower(FaqCaptions[i])) == [Maintenance, Payment, FaqBack][i - 2]
  {
    if i == 2 {
      LowerTo(FaqCaptions[2], "vocês fazem manutenção?");
      FaqCaptionVocesFazemManutencao(ToLower(FaqCaptions[2]));
    }
    else if i == 3 {
      LowerTo(FaqCaptions[3], "formas de pagamento?");
      FaqCaptionFormasDePagamento(ToLower(FaqCaptions[3]));
    }
    else if i == 4 {
      LowerTo(FaqCaptions[4], "voltar ao menu principal");
      FaqCaptionVoltarAoMenuPrincipal(ToLower(FaqCaptions[4]));
    }
  }


  /** Every caption is non-empty with no surrounding whitespace, so pressing a
      button submits exactly its caption. */
  predicate Pressable(captions: seq<string>) {
    forall i :: 0 <= i < |captions| ==> captions[i] != [] && IsTrimmed(captions[i])
  }

  lemma MainMenuPressable()
    ensures Pressable(MainMenuCaptions)
  {
  }

  lemma InterestPressable()
    ensures Pressable(InterestCaptions)
  {
  }

  lemma ContactPressable()
    ensures Pressable(ContactCaptions)
  {
  }

  lemma FaqPressable()
    ensures Pressable(FaqCaptions)
  {
  }

  lemma PortfolioFollowUpPressable()
    ensures Pressable(PortfolioFollowUpCaptions)
  {
  }

  lemma YesNoPressable()
    ensures Pressable(YesNoCaptions)
  {
  }

  lemma FaqFollowUpPressable()
    ensures Pressable(FaqFollowUpCaptions)
  {
  }
}

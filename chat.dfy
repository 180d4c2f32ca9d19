/**
 * The coach chat page: a canned responder that picks its reply by keyword,
 * and the conversation, where the reply is appended after a delay.
 */
module Chat {
  import opened Wrappers
  import opened Strings
  import opened KeywordMatch

  datatype Sender = User | Bot

  /**
   * A message shown in the conversation. The visitor's messages hold what
   * was typed; the bot's hold one of the canned texts, whose wording is `Text`.
   */
  datatype Message = Message(id: string, sender: Sender, body: Body) {
    /** The text displayed. */
    function Text(): string {
      match body
      case Typed(t) => t
      case Canned(c) => c.Text()
    }
  }

  datatype Body = Typed(text: string) | Canned(reply: Reply)

  /** The bot's canned texts: the welcome note and the replies. */
  datatype Reply = WelcomeNote | Stuck | NoTime | Clients | Fallback {
    function Text(): string {
      match this
      case WelcomeNote => "Hey ! \U{1F44B} Je suis le coach Parlios (version test). Dis-moi ce qui te bloque en ce moment, je vais essayer de t'aider.\n\n\U{1F539} Prochaine étape : Pose ta question ou décris ta situation."
      case Stuck => "C'est normal de se sentir bloqué parfois. L'important, c'est d'identifier UN seul blocage prioritaire. Quel est le truc qui t'empêche d'avancer le plus en ce moment ?\n\n\U{1F539} Prochaine étape : Fais le diagnostic pour identifier précisément ton blocage."
      case NoTime => "Le manque de temps, c'est souvent un problème de priorisation plutôt que d'heures. La vraie question : est-ce que tu travailles sur ce qui a le plus d'impact ?\n\n\U{1F539} Prochaine étape : Identifie les 3 tâches qui prennent le plus de temps sans résultat."
      case Clients => "Trouver des clients, c'est un système, pas de la magie. Le secret : régularité + bons canaux + messages clairs. Tu as déjà identifié ton canal principal ?\n\n\U{1F539} Prochaine étape : Utilise l'outil Relance pour écrire 3 messages à des prospects tièdes."
      case Fallback => "Merci pour ta question ! Je suis encore en version bêta, mais je capte ce que tu dis. Pour l'instant, le meilleur moyen de t'aider, c'est de commencer par le diagnostic.\n\n\U{1F539} Prochaine étape : Fais le diagnostic en 3 min pour avoir un plan personnalisé."
    }
  }

  const StuckKeywords := ["bloque", "coincé", "perdu", "sais pas"]
  const TimeKeywords := ["temps", "débordé", "trop", "chargé"]
  const ClientKeywords := ["client", "vendre", "vente", "prospection", "trouver"]

  /** `predefinedResponses`, tried in this order. */
  const Responses := [Entry(StuckKeywords, Stuck), Entry(TimeKeywords, NoTime), Entry(ClientKeywords, Clients)]

  /** The welcome message the conversation starts with. */
  const Welcome := Message("welcome", Bot, Canned(WelcomeNote))

  /**
   * The reply to an input: the first table entry one of whose keywords occurs
   * in the lower-cased input, or the fallback when there is none.
   */
  function BotReply(input: string): Reply {
    ReplyFrom(Responses, input)
  }

  /** The reply `table` gives to `input`: its first match, or the fallback. */
  function ReplyFrom(table: seq<Entry<Reply>>, input: string): Reply {
    match FirstMatch(table, Lower(input))
    case Some(e) => e.response
    case None => Fallback
  }

  /** The fallback is given exactly when no entry matches; otherwise the first matching entry's reply. */
  lemma BotReplySpec(input: string)
    ensures BotReply(input) != WelcomeNote
    ensures BotReply(input) == Fallback
      <==> forall i :: 0 <= i < |Responses| ==> !AnyKeyword(Responses[i].keywords, Lower(input))
    ensures BotReply(input) != Fallback ==>
      exists i :: (0 <= i < |Responses| && BotReply(input) == Responses[i].response
                   && AnyKeyword(Responses[i].keywords, Lower(input))
                   && forall j :: 0 <= j < i ==> !AnyKeyword(Responses[j].keywords, Lower(input)))
  {
    FirstMatchSpec(Responses, Lower(input));
  }

  /** The three canned replies, by the first group of keywords the input mentions. */
  lemma BotReplyRules(input: string)
    ensures AnyKeyword(StuckKeywords, Lower(input)) ==> BotReply(input) == Stuck
    ensures !AnyKeyword(StuckKeywords, Lower(input)) && AnyKeyword(TimeKeywords, Lower(input))
      ==> BotReply(input) == NoTime
    ensures (!AnyKeyword(StuckKeywords, Lower(input)) && !AnyKeyword(TimeKeywords, Lower(input))
             && AnyKeyword(ClientKeywords, Lower(input))) ==> BotReply(input) == Clients
  {
    var text := Lower(input);
    if AnyKeyword(StuckKeywords, text) {
      FirstMatchAt(Responses, text, 0);
    } else if AnyKeyword(TimeKeywords, text) {
      FirstMatchAt(Responses, text, 1);
    } else if AnyKeyword(ClientKeywords, text) {
      FirstMatchAt(Responses, text, 2);
    }
  }

  /** Upper and lower case make no difference to the reply. */
  lemma BotReplyIgnoresCase(input: string)
    ensures BotReply(Lower(input)) == BotReply(input)
  {
    LowerIdempotent(input);
  }

  /** The conversation on the chat page. */
  class ChatSession {
    /** The messages shown, oldest first. */
    var messages: seq<Message>
    /** The text being typed. */
    var input: string
    /** Bot replies whose timer has not fired yet, in the order they were scheduled. */
    var pending: seq<Message>
    /** The keyword table the page answers from. */
    const responses: seq<Entry<Reply>>

    constructor ()
      ensures messages == [Welcome] && input == "" && pending == []
      ensures responses == Responses
    {
      messages, input, pending := [Welcome], "", [];
      responses := Responses;
    }

    /** The input field's `onChange`. */
    method SetInput(text: string)
      modifies this
      ensures input == text && messages == old(messages) && pending == old(pending)
    {
      input := text;
    }

    /** The send button is enabled exactly when the input holds something other than white space. */
    function CanSend(): (r: bool)
      reads this
      ensures r <==> !IsBlank(input)
    {
      TrimEmptyIffBlank(input);
      Trim(input) != ""
    }

    /**
     * `handleSend`: a blank input does nothing; otherwise the input is
     * appended as the visitor's message, the reply is scheduled, and the input
     * is cleared. The clock is read twice, `now` for the visitor's message id
     * and `later` (no earlier) for the reply's, which is `later + 1`.
     */
    method HandleSend(now: nat, later: nat)
      requires now <= later
      modifies this
      ensures Trim(old(input)) == "" ==>
        messages == old(messages) && input == old(input) && pending == old(pending)
      ensures Trim(old(input)) != "" ==>
        messages == old(messages) + [Message(DecimalString(now), User, Typed(old(input)))]
        && pending == old(pending) + [Message(DecimalString(later + 1), Bot, Canned(ReplyFrom(responses, old(input))))]
        && input == ""
    {
      if Trim(input) == "" {
        return;
      }
      var userMessage := Message(DecimalString(now), User, Typed(input));
      messages := messages + [userMessage];
      var reply := ReplyFrom(responses, input);
      var botMessage := Message(DecimalString(later + 1), Bot, Canned(reply));
      pending := pending + [botMessage];
      input := "";
    }

    /** The oldest pending timer fires: its reply is appended to the conversation. */
    method DeliverReply()
      requires pending != []
      modifies this
      ensures messages == old(messages) + [old(pending)[0]]
      ensures pending == old(pending)[1..] && input == old(input)
    {
      messages := messages + [pending[0]];
      pending := pending[1..];
    }
  }

  /**
   * Once every timer has fired, a non-blank input sent with the clock at
   * `now` and then `later` shows up as the visitor's message followed by its reply.
   */
  method SendAndWait(chat: ChatSession, now: nat, later: nat)
    requires chat.pending == [] && Trim(chat.input) != "" && now <= later
    modifies chat
    ensures chat.messages == old(chat.messages) + [
      Message(DecimalString(now), User, Typed(old(chat.input))),
      Message(DecimalString(later + 1), Bot, Canned(ReplyFrom(chat.responses, old(chat.input))))]
    ensures chat.pending == [] && chat.input == ""
  {
    chat.HandleSend(now, later);
    chat.DeliverReply();
  }

  /**
   * Within one send, the reply's id is never the visitor's message id. This
   * rests on the second clock read being no earlier than the first
   * (`now <= later`); a wall clock set back between the two reads is not modelled.
   */
  lemma ReplyIdDiffersFromUserId(now: nat, later: nat)
    requires now <= later
    ensures DecimalString(later + 1) != DecimalString(now)
  {
    DecimalRoundTrip(now);
    DecimalRoundTrip(later + 1);
  }
}

/**
 * frontend/src/app/movie-chat-bubble/movie-chat-bubble.component.ts: the chat
 * bubble. Messages are numbered by a pre-incremented counter and appended to a
 * fresh copy of the history; a sent message arms a reply timer, whose firing is
 * the explicit `DeliverReply` step, and the canned reply is chosen by keyword
 * priority on the lower-cased message. Message timestamps are not modelled.
 */
module ChatBubble {
  import opened Wrappers
  import opened Text

  datatype Sender = FromUser | FromAi

  /** A `MovieSuggestion`. */
  datatype MovieSuggestion = MovieSuggestion(id: nat, title: string, poster: string, year: nat, rating: real)

  /** A `ChatMessage`; `suggestions` is `None` where the source leaves it undefined. */
  datatype ChatMessage = ChatMessage(id: nat, sender: Sender, text: string, suggestions: Option<seq<MovieSuggestion>>)

  /** The text of a reply and its suggestions. */
  datatype AiReply = AiReply(text: string, suggestions: Option<seq<MovieSuggestion>>)

  const Welcome := "Hello! I'm your movie assistant. Ask me for recommendations, search for titles, or find similar movies!"
  const RecommendText := "Based on popular trends, here are some great recommendations:"
  const FoundText := "I found some movies matching your query:"
  const SimilarText := "Here are some similar movies you might enjoy:"
  const HelpText := "I'm here to help with movie recommendations, searches, and suggestions. What would you like to know?"

  const Recommended: seq<MovieSuggestion> := [
    MovieSuggestion(1, "The Shawshank Redemption", "https://via.placeholder.com/100x150/1a1a1a/ffffff?text=Shawshank", 1994, 9.3),
    MovieSuggestion(2, "Inception", "https://via.placeholder.com/100x150/1a1a1a/ffffff?text=Inception", 2010, 8.8),
    MovieSuggestion(3, "The Dark Knight", "https://via.placeholder.com/100x150/1a1a1a/ffffff?text=Dark+Knight", 2008, 9.0)
  ]

  const Found: seq<MovieSuggestion> := [
    MovieSuggestion(4, "Pulp Fiction", "https://via.placeholder.com/100x150/1a1a1a/ffffff?text=Pulp+Fiction", 1994, 8.9),
    MovieSuggestion(5, "Forrest Gump", "https://via.placeholder.com/100x150/1a1a1a/ffffff?text=Forrest+Gump", 1994, 8.8)
  ]

  const Similar: seq<MovieSuggestion> := [
    MovieSuggestion(6, "Interstellar", "https://via.placeholder.com/100x150/1a1a1a/ffffff?text=Interstellar", 2014, 8.6),
    MovieSuggestion(7, "The Matrix", "https://via.placeholder.com/100x150/1a1a1a/ffffff?text=Matrix", 1999, 8.7)
  ]

  /**
   * The reply of `simulateAIResponse`: 'recommend' first, then 'search' or
   * 'find', then 'similar', each checked on the lower-cased message; a message
   * with none of them gets the help text and no suggestions.
   */
  function ReplyTo(userMessage: string): (r: AiReply)
    ensures var lm := Lower(userMessage);
      && (r.suggestions.Some? && |r.suggestions.value| == 3 <==> Contains(lm, "recommend"))
      && (r.suggestions.Some? && |r.suggestions.value| == 2 <==>
            !Contains(lm, "recommend") && (Contains(lm, "search") || Contains(lm, "find") || Contains(lm, "similar")))
      && (r.suggestions.None? <==>
            !Contains(lm, "recommend") && !Contains(lm, "search") && !Contains(lm, "find") && !Contains(lm, "similar"))
      && (r.suggestions.None? <==> r.text == HelpText)
    ensures r.suggestions == Some(Similar) <==> r.text == SimilarText
    ensures var lm := Lower(userMessage);
      && (Contains(lm, "recommend") ==> r == AiReply(RecommendText, Some(Recommended)))
      && (!Contains(lm, "recommend") && (Contains(lm, "search") || Contains(lm, "find")) ==>
            r == AiReply(FoundText, Some(Found)))
      && (!Contains(lm, "recommend") && !Contains(lm, "search") && !Contains(lm, "find") && Contains(lm, "similar") ==>
            r == AiReply(SimilarText, Some(Similar)))
  {
    var lm := Lower(userMessage);
    if Contains(lm, "recommend") then AiReply(RecommendText, Some(Recommended))
    else if Contains(lm, "search") || Contains(lm, "find") then AiReply(FoundText, Some(Found))
    else if Contains(lm, "similar") then AiReply(SimilarText, Some(Similar))
    else AiReply(HelpText, None)
  }

  /** The reply ignores case: a message and its lower-cased form get the same reply. */
  lemma ReplyIgnoresCase(userMessage: string)
    ensures ReplyTo(Lower(userMessage)) == ReplyTo(userMessage)
  {
    LowerIdempotent(userMessage);
  }

  /** Message `i` of the history carries id `i + 1`. */
  ghost predicate NumberedFromOne(history: seq<ChatMessage>) {
    forall i :: 0 <= i < |history| ==> history[i].id == i + 1
  }

  /** Numbered messages have strictly increasing ids. */
  lemma NumberedIncreasing(history: seq<ChatMessage>, i: int, j: int)
    requires NumberedFromOne(history)
    requires 0 <= i < j < |history|
    ensures history[i].id < history[j].id
  {
  }

  class MovieChatBubble {
    var isOpen: bool
    var userInput: string
    var isTyping: bool
    /** The value of `chatHistorySubject`. */
    var history: seq<ChatMessage>
    var messageId: nat
    /** The messages whose reply timers are still running, oldest first. */
    var awaiting: seq<string>

    /** The counter is the number of messages, and the history is numbered from one. */
    ghost predicate Valid()
      reads this
    {
      messageId == |history| && NumberedFromOne(history)
    }

    constructor ()
      ensures Valid()
      ensures !isOpen && userInput == "" && !isTyping && history == [] && messageId == 0 && awaiting == []
    {
      isOpen := false;
      userInput := "";
      isTyping := false;
      history := [];
      messageId := 0;
      awaiting := [];
    }

    /** Appends a message with the next id, leaving the earlier ones as they were. */
    method AddMessage(sender: Sender, text: string, suggestions: Option<seq<MovieSuggestion>>)
      requires Valid()
      modifies this`history, this`messageId
      ensures Valid()
      ensures messageId == old(messageId) + 1
      ensures history == old(history) + [ChatMessage(messageId, sender, text, suggestions)]
    {
      messageId := messageId + 1;
      history := history + [ChatMessage(messageId, sender, text, suggestions)];
    }

    /** Posts the welcome message, which on a new bubble is the only message, with id 1. */
    method NgOnInit()
      requires Valid()
      modifies this`history, this`messageId
      ensures Valid()
      ensures history == old(history) + [ChatMessage(old(messageId) + 1, FromAi, Welcome, None)]
      ensures old(history) == [] ==> history == [ChatMessage(1, FromAi, Welcome, None)]
    {
      AddMessage(FromAi, Welcome, None);
    }

    /** Opens or closes the bubble and nothing else. */
    method ToggleChat()
      modifies this`isOpen
      ensures isOpen == !old(isOpen)
    {
      isOpen := !isOpen;
    }

    /**
     * An input that trims to nothing changes nothing. Otherwise the trimmed text
     * is appended as the user's message, the input is cleared, and the reply
     * timer starts with the bubble typing.
     */
    method SendMessage()
      requires Valid()
      modifies this`history, this`messageId, this`userInput, this`isTyping, this`awaiting
      ensures Valid()
      ensures Trim(old(userInput)) == [] ==>
        history == old(history) && messageId == old(messageId) && userInput == old(userInput)
        && isTyping == old(isTyping) && awaiting == old(awaiting)
      ensures Trim(old(userInput)) != [] ==>
        && history == old(history) + [ChatMessage(old(messageId) + 1, FromUser, Trim(old(userInput)), None)]
        && userInput == "" && isTyping
        && awaiting == old(awaiting) + [Trim(old(userInput))]
    {
      if Trim(userInput) == [] {
        return;
      }
      var userMessage := Trim(userInput);
      AddMessage(FromUser, userMessage, None);
      userInput := "";
      isTyping := true;
      awaiting := awaiting + [userMessage];
    }

    /** `onKeyPress`: Enter without Shift sends the message; any other key changes nothing. */
    method OnKeyPress(key: string, shiftKey: bool)
      requires Valid()
      modifies this`history, this`messageId, this`userInput, this`isTyping, this`awaiting
      ensures Valid()
      ensures !(key == "Enter" && !shiftKey) || Trim(old(userInput)) == [] ==>
        history == old(history) && messageId == old(messageId) && userInput == old(userInput)
        && isTyping == old(isTyping) && awaiting == old(awaiting)
      ensures key == "Enter" && !shiftKey && Trim(old(userInput)) != [] ==>
        && history == old(history) + [ChatMessage(old(messageId) + 1, FromUser, Trim(old(userInput)), None)]
        && userInput == "" && isTyping && awaiting == old(awaiting) + [Trim(old(userInput))]
    {
      if key == "Enter" && !shiftKey {
        SendMessage();
      }
    }

    /** The oldest reply timer fires: typing stops and exactly one reply is appended. */
    method DeliverReply()
      requires Valid()
      requires awaiting != []
      modifies this`history, this`messageId, this`isTyping, this`awaiting
      ensures Valid()
      ensures !isTyping && awaiting == old(awaiting)[1..]
      ensures |history| == |old(history)| + 1 && history[..|old(history)|] == old(history)
      ensures var reply := ReplyTo(old(awaiting)[0]);
        history[|history| - 1] == ChatMessage(messageId, FromAi, reply.text, reply.suggestions)
    {
      var userMessage := awaiting[0];
      awaiting := awaiting[1..];
      isTyping := false;
      var reply := ReplyTo(userMessage);
      AddMessage(FromAi, reply.text, reply.suggestions);
    }
  }
}

/**
 * The `ChatPage` component (src/pages/chatPage.jsx:184-300): the list of
 * exchanged messages, the busy flag, the selected model, and
 * `handleSendMessage`, split at its first `await` (the `fetch`) into
 * `Submit` (what happens before the request is sent) and `Settle` (what
 * happens when it settles). The request itself is outside the model: its
 * result is an `Outcome`, into which the second `await` (`response.json()`)
 * is folded: a body that is not JSON is `Threw`.
 */
module Conversation {
  import opened Wrappers
  import Input
  import Reveal
  import Words

  datatype Role = User | Assistant

  /** `{ role, content, model? }`; an absent `content` is JavaScript's `undefined`. */
  datatype Message = Message(role: Role, content: Option<string>, model: Option<string>)

  /** The JSON body POSTed to the local inference endpoint (its `stream` field is always false). */
  datatype Request = Request(model: string, prompt: string)

  /**
   * How the request settles: a 2xx answer whose JSON body's `response` field
   * is read (possibly absent), a non-2xx status, or a thrown error (network
   * failure or a body that is not JSON).
   */
  datatype Outcome = Ok(response: Option<string>) | HttpNotOk | Threw

  const DefaultModel: string := "llama3.2"
  const ErrorText: string := "❌ No pude conectarme con Ollama. Asegúrate de que Ollama esté corriendo en tu computadora (ollama serve)."

  /** A message as `handleSendMessage` builds it: user messages carry text and no model, replies carry a model. */
  predicate WellFormed(m: Message) {
    && (m.role == User ==> m.content.Some? && m.model.None?)
    && (m.role == Assistant ==> m.model.Some?)
  }

  /**
   * The list is a run of exchanges: user and assistant messages alternate,
   * starting with a user message.
   */
  predicate Alternating(ms: seq<Message>) {
    forall i :: 0 <= i < |ms| ==> (ms[i].role == User <==> i % 2 == 0) && WellFormed(ms[i])
  }

  /** The message the `try`/`catch` appends once the request with `model` has settled with `outcome`. */
  function Reply(outcome: Outcome, model: string): (m: Message)
    ensures m.role == Assistant && m.model == Some(model) && WellFormed(m)
    ensures outcome.Ok? ==> m.content == outcome.response
    ensures !outcome.Ok? ==> m.content == Some(ErrorText)
  {
    match outcome
    case Ok(response) => Message(Assistant, response, Some(model))
    case _ => Message(Assistant, Some(ErrorText), Some(model))
  }

  /** Appending the user's message to a run of completed exchanges opens a new one. */
  lemma UserTurnAlternates(ms: seq<Message>, prompt: string)
    requires Alternating(ms) && |ms| % 2 == 0
    ensures Alternating(ms + [Message(User, Some(prompt), None)])
  {
  }

  /** Appending the reply to an open exchange completes it. */
  lemma ReplyTurnAlternates(ms: seq<Message>, outcome: Outcome, model: string)
    requires Alternating(ms) && |ms| % 2 == 1
    ensures Alternating(ms + [Reply(outcome, model)])
  {
  }

  class ChatPage {
    /** `selectedModel`: the model id the next request names. */
    var selectedModel: string
    /** `messages`, in append order (also display order). */
    var messages: seq<Message>
    /** `isLoading`: a request is in flight; it also disables the input. */
    var isLoading: bool
    /** The request in flight, with the model it was sent with. */
    var pending: Option<Request>

    /**
     * At most one request is in flight, exactly while `isLoading`; the list
     * is a run of exchanges, and while loading its last message is the
     * prompt being answered.
     */
    ghost predicate Valid()
      reads this
    {
      && (isLoading <==> pending.Some?)
      && Alternating(messages)
      && (|messages| % 2 == 1 <==> isLoading)
      && (isLoading ==> messages[|messages| - 1] == Message(User, Some(pending.value.prompt), None))
    }

    /** The three `useState` initialisers (lines 185-187). */
    constructor ()
      ensures Valid()
      ensures selectedModel == DefaultModel && messages == [] && !isLoading && pending == None
    {
      selectedModel := DefaultModel;
      messages := [];
      isLoading := false;
      pending := None;
    }

    /** The model selector's `onChange`; the selector is disabled while loading, so nothing changes then. */
    method SelectModel(id: string)
      requires Valid()
      modifies this
      ensures Valid()
      ensures messages == old(messages) && isLoading == old(isLoading) && pending == old(pending)
      ensures selectedModel == if old(isLoading) then old(selectedModel) else id
    {
      if !isLoading {
        selectedModel := id;
      }
    }

    /**
     * `handleSendMessage` up to its first `await`: append the user's message, set
     * the busy flag and issue the one request, naming the selected model
     * and the message as prompt.
     */
    method Submit(text: string) returns (request: Request)
      requires Valid() && !isLoading
      modifies this
      ensures Valid()
      ensures messages == old(messages) + [Message(User, Some(text), None)]
      ensures isLoading && pending == Some(request)
      ensures request == Request(old(selectedModel), text)
      ensures selectedModel == old(selectedModel)
    {
      messages := messages + [Message(User, Some(text), None)];
      isLoading := true;
      request := Request(selectedModel, text);
      pending := Some(request);
      UserTurnAlternates(old(messages), text);
    }

    /**
     * `handleSendMessage` once the request has settled: exactly one assistant message
     * is appended (the reply, or the fixed error text), earlier messages
     * stay as they were, and the busy flag is cleared (`finally`).
     */
    method Settle(outcome: Outcome)
      requires Valid() && isLoading
      modifies this
      ensures Valid()
      ensures messages == old(messages) + [Reply(outcome, old(pending).value.model)]
      ensures !isLoading && pending == None
      ensures selectedModel == old(selectedModel)
    {
      var request := pending.value;
      ReplyTurnAlternates(messages, outcome, request.model);
      messages := messages + [Reply(outcome, request.model)];
      isLoading := false;
      pending := None;
    }

    /**
     * `handleSendMessage` run to its end: the user's message and then the
     * reply are appended, and the page is idle again.
     */
    method HandleSendMessage(text: string, outcome: Outcome) returns (request: Request)
      requires Valid() && !isLoading
      modifies this
      ensures Valid()
      ensures request == Request(old(selectedModel), text)
      ensures messages == old(messages) + [Message(User, Some(text), None), Reply(outcome, old(selectedModel))]
      ensures !isLoading && pending == None && selectedModel == old(selectedModel)
    {
      request := Submit(text);
      Settle(outcome);
    }
  }

  /**
   * The input box wired to the page (lines 290-295): `onSend` is
   * `handleSendMessage` and `disabled` is `isLoading`. A blank text or a
   * busy page changes nothing; otherwise the box is cleared and the text
   * is submitted.
   */
  method SendFromInput(page: ChatPage, box: Input.ChatInput) returns (request: Option<Request>)
    requires page.Valid()
    modifies page, box
    ensures page.Valid()
    ensures page.selectedModel == old(page.selectedModel)
    ensures Input.ShouldSend(old(box.input), old(page.isLoading)) ==>
      && request == Some(Request(old(page.selectedModel), old(box.input)))
      && box.input == ""
      && page.isLoading && page.pending == request
      && page.messages == old(page.messages) + [Message(User, Some(old(box.input)), None)]
    ensures !Input.ShouldSend(old(box.input), old(page.isLoading)) ==>
      && request == None
      && box.input == old(box.input)
      && page.messages == old(page.messages)
      && page.isLoading == old(page.isLoading) && page.pending == old(page.pending)
  {
    var sent := box.HandleSubmit(page.isLoading);
    if sent.Some? {
      var r := page.Submit(sent.value);
      request := Some(r);
    } else {
      request := None;
    }
  }

  /**
   * How each message is drawn (lines 276-281): a `ChatMessage` whose effect
   * has run once with the message's content, flagged as a user message
   * exactly when its role is `user`. A user message shows its text at once
   * with no cursor; a reply starts revealing from the empty text.
   */
  method Render(message: Message) returns (view: Reveal.ChatMessage)
    ensures fresh(view) && view.Valid()
    ensures message.role == User && message.content.Some? && message.content.value != "" ==>
      view.displayedText == message.content.value && !view.isAnimating && !view.ticking
    ensures message.role == Assistant && message.content.Some? && message.content.value != "" ==>
      && view.displayedText == "" && view.isAnimating && view.ticking
      && view.words == Words.Tokenize(message.content.value) && view.currentIndex == 0
    ensures message.content.None? || message.content.value == "" ==>
      view.displayedText == "" && view.isAnimating == (message.role == Assistant) && !view.ticking
  {
    var isUser := message.role == User;
    view := new Reveal.ChatMessage(isUser);
    view.Start(message.content, isUser);
  }
}

/**
 * The chat state of src/components/ChatInterface.tsx: the message list,
 * the editor input, and the submit guard that moves a non-blank input into
 * the list.
 */
module ChatInterface {
  import opened Wrappers
  import opened JsString
  import opened Editor

  datatype Role = User | Assistant

  datatype Message = Message(role: Role, content: Content)

  /** `{type: "doc", content: []}`, the input's initial and reset value. */
  const EmptyDoc: Content := Doc(JsonNode("doc", None, []))

  /**
   * What the submit guard (ChatInterface.tsx:30-37) accepts, stated without
   * `trim`: a string that is not all white space, or any other non-null
   * content whose text is not all white space.
   */
  predicate Submittable(input: Content, generateText: JsonNode -> string)
  {
    match input
    case Nothing => false
    case Html(s) => !Blank(s)
    case _ => !Blank(TextOf(input, generateText))
  }

  /**
   * The component's `messages` and `input` states.  Nothing in it creates
   * an assistant message, so every message has the user role.
   */
  class Chat {
    var messages: seq<Message>
    var input: Content

    ghost predicate Valid()
      reads this
    {
      forall i :: 0 <= i < |messages| ==> messages[i].role == User
    }

    constructor ()
      ensures Valid() && messages == [] && input == EmptyDoc
    {
      messages := [];
      input := EmptyDoc;
    }

    /** `handleInputChange` (ChatInterface.tsx:24-26): the editor's document becomes the input. */
    method InputChanged(value: JsonNode)
      requires Valid()
      modifies this
      ensures Valid() && input == Doc(value) && messages == old(messages)
    {
      input := Doc(value);
    }

    /**
     * `handleSubmit` (ChatInterface.tsx:28-44).  A falsy input, a blank
     * string, or content whose text is blank leaves both states as they
     * are.  Otherwise the input is appended as a user message, earlier
     * messages are kept, and the input is reset to the empty document.
     */
    method HandleSubmit(generateText: JsonNode -> string)
      requires Valid()
      modifies this
      ensures Valid()
      ensures Submittable(old(input), generateText) ==>
                messages == old(messages) + [Message(User, old(input))] && input == EmptyDoc
      ensures !Submittable(old(input), generateText) ==>
                messages == old(messages) && input == old(input)
    {
      if input.Nothing? || input == Html("") {
        return;
      }
      if input.Html? && Trim(input.s) == "" {
        TrimBlank(input.s);
        return;
      }
      if !input.Html? && Trim(TextOf(input, generateText)) == "" {
        TrimBlank(TextOf(input, generateText));
        return;
      }
      if input.Html? {
        TrimBlank(input.s);
      } else {
        TrimBlank(TextOf(input, generateText));
      }
      messages := messages + [Message(User, input)];
      input := EmptyDoc;
    }

    /**
     * A keydown in the input editor, whose `onSubmit` is `handleSubmit`
     * (ChatInterface.tsx:74-78, Editor.tsx:76-83): Enter with Ctrl or Meta
     * submits, any other key changes nothing.
     */
    method EditorKeyDown(event: KeyEvent, generateText: JsonNode -> string)
      requires Valid()
      modifies this
      ensures Valid()
      ensures event.key == "Enter" && (event.ctrlKey || event.metaKey) && Submittable(old(input), generateText) ==>
                messages == old(messages) + [Message(User, old(input))] && input == EmptyDoc
      ensures !(event.key == "Enter" && (event.ctrlKey || event.metaKey) && Submittable(old(input), generateText)) ==>
                messages == old(messages) && input == old(input)
    {
      var _, submit := HandleKeyDown(event, true);
      if submit {
        HandleSubmit(generateText);
      }
    }
  }
}

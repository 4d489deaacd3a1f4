/**
 * The editor helpers of src/components/Editor.tsx: the plain text of a
 * piece of editor content (`generateTextFromContent`) and the keyboard
 * shortcut that submits it.
 */
module Editor {
  import opened Wrappers
  import opened JsString

  /** A node of the editor's JSON document: its type, its text and its children. */
  datatype JsonNode = JsonNode(nodeType: string, text: Option<string>, content: seq<JsonNode>)

  /**
   * The editor's `Content`: an HTML string, an array of contents,
   * null/undefined, or a JSON document.
   */
  datatype Content = Html(s: string) | Items(items: seq<Content>) | Nothing | Doc(node: JsonNode)

  /**
   * `generateTextFromContent` (Editor.tsx:22-35).  The editor library's
   * `generateText` is not part of this model: it is the parameter
   * `generateText`.
   */
  function TextOf(c: Content, generateText: JsonNode -> string): string
    decreases c
  {
    match c
    case Html(s) => s
    case Items(items) => Join(TextsOf(items, generateText), "")
    case Nothing => ""
    case Doc(node) => generateText(node)
  }

  /** `content.map(generateTextFromContent)`. */
  function TextsOf(items: seq<Content>, generateText: JsonNode -> string): (r: seq<string>)
    ensures |r| == |items|
    decreases items, 0
  {
    if items == [] then [] else [TextOf(items[0], generateText)] + TextsOf(items[1..], generateText)
  }

  /**
   * A string is its own text, null or undefined has none, an empty array
   * has none, and any other object is handed to `generateText`.
   */
  lemma TextOfCases(s: string, node: JsonNode, generateText: JsonNode -> string)
    ensures TextOf(Html(s), generateText) == s
    ensures TextOf(Nothing, generateText) == ""
    ensures TextOf(Items([]), generateText) == ""
    ensures TextOf(Doc(node), generateText) == generateText(node)
  {
  }

  lemma JoinEmptyAppend(a: seq<string>, b: seq<string>)
    ensures Join(a + b, "") == Join(a, "") + Join(b, "")
  {
    if a == [] {
      assert a + b == b;
    } else if b == [] {
      assert a + b == a;
    } else {
      JoinAppend(a, b, "");
    }
  }

  lemma {:induction false} TextsOfAppend(a: seq<Content>, b: seq<Content>, generateText: JsonNode -> string)
    ensures TextsOf(a + b, generateText) == TextsOf(a, generateText) + TextsOf(b, generateText)
    decreases |a|
  {
    if a == [] {
      assert a + b == b;
    } else {
      assert (a + b)[0] == a[0] && (a + b)[1..] == a[1..] + b;
      TextsOfAppend(a[1..], b, generateText);
    }
  }

  /**
   * The text of an array is the in-order concatenation of its elements'
   * texts: the text of `a + b` is the text of `a` followed by that of `b`.
   */
  lemma TextOfItemsAppend(a: seq<Content>, b: seq<Content>, generateText: JsonNode -> string)
    ensures TextOf(Items(a + b), generateText) == TextOf(Items(a), generateText) + TextOf(Items(b), generateText)
  {
    TextsOfAppend(a, b, generateText);
    JoinEmptyAppend(TextsOf(a, generateText), TextsOf(b, generateText));
  }

  /** A one-element array has the text of its element. */
  lemma TextOfSingleton(c: Content, generateText: JsonNode -> string)
    ensures TextOf(Items([c]), generateText) == TextOf(c, generateText)
  {
    assert [c][1..] == [];
  }

  /** A keyboard event: its key and whether Ctrl or Meta is held. */
  datatype KeyEvent = KeyEvent(key: string, ctrlKey: bool, metaKey: bool)

  /**
   * The editor's keydown handler (Editor.tsx:76-83).  Enter with Ctrl or
   * Meta held prevents the default action and calls `onSubmit` when one was
   * given; any other key does nothing.
   */
  method HandleKeyDown(event: KeyEvent, hasOnSubmit: bool) returns (preventDefault: bool, submit: bool)
    ensures preventDefault <==> event.key == "Enter" && (event.ctrlKey || event.metaKey)
    ensures submit <==> preventDefault && hasOnSubmit
  {
    preventDefault, submit := false, false;
    if event.key == "Enter" && (event.ctrlKey || event.metaKey) {
      preventDefault := true;
      if hasOnSubmit {
        submit := true;
      }
    }
  }
}

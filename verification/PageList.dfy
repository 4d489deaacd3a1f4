/**
 * The page-mention suggestion of src/components/PageList.tsx: keyboard
 * navigation over the suggested pages (`PageMentionList`), the HTML a
 * mention renders to, and the editor insertion its `command` performs.
 */
module PageList {
  import opened Wrappers

  /**
   * `selectedIndex`.  It starts at 0; an arrow key on an empty list makes it
   * `NaN` (`x % 0`), which every later arrow key keeps.
   */
  datatype Index = At(i: nat) | NaN

  /** A suggested page; only its name is used. */
  datatype PageItem = PageItem(name: string)

  /** The props handed to the suggestion's `command`. */
  datatype MentionAttrs = MentionAttrs(id: string, mentionLabel: string)

  /** ArrowDown (PageList.tsx:47-50): `(selectedIndex + 1) % pages.length`. */
  function ArrowDown(sel: Index, n: nat): (r: Index)
    ensures n > 0 && sel.At? ==> r.At? && r.i < n
    ensures n == 0 || sel.NaN? ==> r == NaN
  {
    match sel
    case NaN => NaN
    case At(i) => if n == 0 then NaN else At((i + 1) % n)
  }

  /** ArrowUp (PageList.tsx:42-45): `(selectedIndex + pages.length - 1) % pages.length`. */
  function ArrowUp(sel: Index, n: nat): (r: Index)
    ensures n > 0 && sel.At? ==> r.At? && r.i < n
    ensures n == 0 || sel.NaN? ==> r == NaN
  {
    match sel
    case NaN => NaN
    case At(i) => if n == 0 then NaN else At((i + n - 1) % n)
  }

  lemma ModBelow(x: int, n: int)
    requires 0 <= x < n
    ensures x % n == x
  {
  }

  lemma ModSelf(n: int)
    requires n > 0
    ensures n % n == 0
  {
  }

  lemma ModAboveOnce(x: int, n: int)
    requires n <= x < 2 * n
    ensures x % n == x - n
  {
  }

  /** ArrowUp undoes ArrowDown, and ArrowDown undoes ArrowUp, on an index in range. */
  lemma ArrowsInverse(i: nat, n: nat)
    requires i < n
    ensures ArrowUp(ArrowDown(At(i), n), n) == At(i)
    ensures ArrowDown(ArrowUp(At(i), n), n) == At(i)
  {
    if i + 1 < n {
      ModBelow(i + 1, n);
      ModAboveOnce(i + n, n);
    } else {
      ModSelf(n);
      ModBelow(n - 1, n);
    }
    if i == 0 {
      ModBelow(n - 1, n);
      ModSelf(n);
    } else {
      ModAboveOnce(i + n - 1, n);
      ModBelow(i, n);
    }
  }

  /** `k` presses of ArrowDown. */
  function PressDown(sel: Index, n: nat, k: nat): Index
    decreases k
  {
    if k == 0 then sel else ArrowDown(PressDown(sel, n, k - 1), n)
  }

  lemma {:induction false} PressDownSplit(sel: Index, n: nat, a: nat, b: nat)
    ensures PressDown(sel, n, a + b) == PressDown(PressDown(sel, n, a), n, b)
    decreases b
  {
    if b > 0 {
      PressDownSplit(sel, n, a, b - 1);
    }
  }

  /** Below the end of the list, ArrowDown steps forward one page at a time. */
  lemma {:induction false} PressDownForward(i: nat, n: nat, k: nat)
    requires i + k < n
    ensures PressDown(At(i), n, k) == At(i + k)
    decreases k
  {
    if k > 0 {
      PressDownForward(i, n, k - 1);
      ModBelow(i + k, n);
    }
  }

  /** Navigation wraps over all `n` pages: `n` presses of ArrowDown come back to the start. */
  lemma ArrowDownWraps(i: nat, n: nat)
    requires i < n
    ensures PressDown(At(i), n, n) == At(i)
  {
    PressDownForward(i, n, n - 1 - i);
    ModSelf(n);
    assert PressDown(At(i), n, n - i) == At(0);
    PressDownForward(0, n, i);
    PressDownSplit(At(i), n, n - i, i);
  }

  /** `pages[index]`: undefined when the index is out of range or NaN. */
  function PageAt(pages: seq<PageItem>, sel: Index): (p: Option<PageItem>)
    ensures p.Some? <==> sel.At? && sel.i < |pages|
    ensures p.Some? ==> p.value == pages[sel.i]
  {
    if sel.At? && sel.i < |pages| then Some(pages[sel.i]) else None
  }

  /** The pages listed in the popup (PageList.tsx:80): at most the first ten. */
  function Visible(pages: seq<PageItem>): (r: seq<PageItem>)
    ensures |r| <= 10 && r <= pages
    ensures |pages| <= 10 ==> r == pages
    ensures |pages| > 10 ==> r == pages[..10]
  {
    if |pages| <= 10 then pages else pages[..10]
  }

  /**
   * Navigation ranges over all pages while only ten are listed: with eleven
   * pages, ArrowUp from the first selects one that is not shown.
   */
  lemma SelectionCanLeaveVisible(pages: seq<PageItem>)
    requires |pages| == 11
    ensures ArrowUp(At(0), |pages|) == At(10)
    ensures |Visible(pages)| == 10
  {
  }

  /** The command call that selecting an index makes (PageList.tsx:30-36). */
  function Selection(pages: seq<PageItem>, sel: Index): (cmds: seq<MentionAttrs>)
    ensures |cmds| <= 1
    ensures cmds != [] <==> sel.At? && sel.i < |pages|
    ensures cmds != [] ==> cmds[0].id == pages[sel.i].name && cmds[0].mentionLabel == pages[sel.i].name
  {
    match PageAt(pages, sel)
    case Some(page) => [MentionAttrs(page.name, page.name)]
    case None => []
  }

  /**
   * `PageMentionList`: the pages found for the typed query, the selected
   * index, and a ghost log of the calls to `command`.
   */
  class MentionList {
    var pages: seq<PageItem>
    var selectedIndex: Index
    ghost var commands: seq<MentionAttrs>

    constructor (pages: seq<PageItem>)
      ensures this.pages == pages && selectedIndex == At(0) && commands == []
    {
      this.pages := pages;
      selectedIndex := At(0);
      commands := [];
    }

    /** New search results arrive; the selected index is kept as it is. */
    method SetPages(pages: seq<PageItem>)
      modifies this
      ensures this.pages == pages && selectedIndex == old(selectedIndex) && commands == old(commands)
    {
      this.pages := pages;
    }

    /** `selectItem` (PageList.tsx:30-36), also called by a click on a listed page. */
    method SelectItem(index: Index)
      modifies this
      ensures commands == old(commands) + Selection(pages, index)
      ensures pages == old(pages) && selectedIndex == old(selectedIndex)
    {
      var page := PageAt(pages, index);
      if page.Some? {
        commands := commands + [MentionAttrs(page.value.name, page.value.name)];
      }
    }

    /**
     * `onKeyDown` (PageList.tsx:40-61).  ArrowUp and ArrowDown move the
     * index cyclically, Enter selects the page at the index; these three
     * report the key as handled, and Enter also prevents the default
     * action.  Any other key is not handled and changes nothing.
     */
    method OnKeyDown(key: string) returns (handled: bool, preventDefault: bool)
      modifies this
      ensures handled <==> key in {"ArrowUp", "ArrowDown", "Enter"}
      ensures preventDefault <==> key == "Enter"
      ensures pages == old(pages)
      ensures key == "ArrowUp" ==> selectedIndex == ArrowUp(old(selectedIndex), |pages|)
      ensures key == "ArrowDown" ==> selectedIndex == ArrowDown(old(selectedIndex), |pages|)
      ensures key != "ArrowUp" && key != "ArrowDown" ==> selectedIndex == old(selectedIndex)
      ensures key == "Enter" ==> commands == old(commands) + Selection(pages, selectedIndex)
      ensures key != "Enter" ==> commands == old(commands)
    {
      if key == "ArrowUp" {
        selectedIndex := ArrowUp(selectedIndex, |pages|);
        return true, false;
      }
      if key == "ArrowDown" {
        selectedIndex := ArrowDown(selectedIndex, |pages|);
        return true, false;
      }
      if key == "Enter" {
        SelectItem(selectedIndex);
        return true, true;
      }
      return false, false;
    }
  }

  /** The `span` that `renderHTML` (PageList.tsx:112-121) produces for a mention. */
  datatype MentionSpan = MentionSpan(className: string, dataType: string, dataId: string, text: string)

  /** Reads a `[[…]]` link back: the target between the brackets. */
  function LinkTarget(text: string): (target: Option<string>)
    ensures target.Some? ==> |text| == |target.value| + 4
  {
    if |text| >= 4 && text[..2] == "[[" && text[|text| - 2..] == "]]"
    then Some(text[2..|text| - 2])
    else None
  }

  /** The mention renders as `[[id]]`, and `data-id` carries the same id. */
  function RenderMention(attrs: MentionAttrs): (span: MentionSpan)
    ensures span.dataType == "mention" && span.dataId == attrs.id
    ensures LinkTarget(span.text) == Some(attrs.id)
  {
    var text := "[[" + attrs.id + "]]";
    assert text[..2] == "[[" && text[|text| - 2..] == "]]" && text[2..|text| - 2] == attrs.id;
    MentionSpan("mention font-medium", "mention", attrs.id, text)
  }

  /** An inline node of the editor's document. */
  datatype Inline = Text(text: string) | Mention(attrs: MentionAttrs)

  /**
   * The suggestion's `command` (PageList.tsx:190-206): the typed range
   * `[from, to)` is replaced by a mention node followed by a single space.
   */
  function InsertMention(doc: seq<Inline>, from: nat, to: nat, attrs: MentionAttrs): (r: seq<Inline>)
    requires from <= to <= |doc|
    ensures |r| == |doc| - (to - from) + 2
    ensures r[..from] == doc[..from] && r[from + 2..] == doc[to..]
    ensures r[from] == Mention(attrs) && r[from + 1] == Text(" ")
  {
    doc[..from] + [Mention(attrs), Text(" ")] + doc[to..]
  }
}

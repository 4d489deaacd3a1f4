/**
 * The data transformations of src/contexts/AgentContext.tsx: the rendering
 * of a block tree as indented text (`processBlocks`), the mapping from
 * agent pages to `AgentInfo` records, and the system-prompt query that
 * `useAgent` builds from an agent's name.
 */
module AgentContext {
  import opened Wrappers
  import opened JsString

  /**
   * A block: its `block/content` and its `block/children`.  A missing
   * `block/children` is the empty sequence, since the code treats missing
   * and empty alike.
   */
  datatype Block = Block(content: string, children: seq<Block>)

  /** Each line prefixed with two spaces. */
  function Indent(lines: seq<string>): (r: seq<string>)
  {
    seq(|lines|, i requires 0 <= i < |lines| => "  " + lines[i])
  }

  /** The rendering of one block (AgentContext.tsx:104-111). */
  function RenderBlock(b: Block): (r: string)
    ensures b.content <= r
    ensures r == b.content <==> |b.children| == 0
    decreases b
  {
    if |b.children| == 0 then b.content
    else b.content + "\n" + Join(Indent(Split(ProcessBlocks(b.children), '\n')), "\n")
  }

  function RenderAll(bs: seq<Block>): (r: seq<string>)
    ensures |r| == |bs|
    decreases bs, 0
  {
    if bs == [] then [] else [RenderBlock(bs[0])] + RenderAll(bs[1..])
  }

  /** `processBlocks` (AgentContext.tsx:102-114): sibling renderings joined by newlines. */
  function ProcessBlocks(bs: seq<Block>): (r: string)
    ensures bs == [] ==> r == ""
    ensures bs != [] ==> RenderBlock(bs[0]) <= r
    decreases bs, 1
  {
    Join(RenderAll(bs), "\n")
  }

  /** `" "` repeated `n` times. */
  function Spaces(n: nat): (r: string)
    ensures |r| == n && forall i :: 0 <= i < n ==> r[i] == ' '
  {
    seq(n, _ => ' ')
  }

  /**
   * The intended outline, defined independently: one line per block in
   * pre-order, a block at depth `d` indented by `2 d` spaces.
   */
  function OutlineBlock(b: Block, depth: nat): seq<string>
    decreases b
  {
    [Spaces(2 * depth) + b.content] + Outline(b.children, depth + 1)
  }

  function Outline(bs: seq<Block>, depth: nat): seq<string>
    decreases bs
  {
    if bs == [] then [] else OutlineBlock(bs[0], depth) + Outline(bs[1..], depth)
  }

  /** The number of blocks in a forest. */
  function Size(bs: seq<Block>): nat
    decreases bs
  {
    if bs == [] then 0 else 1 + Size(bs[0].children) + Size(bs[1..])
  }

  /** No block content in the tree holds a newline. */
  ghost predicate SingleLine(bs: seq<Block>)
    decreases bs
  {
    forall i :: 0 <= i < |bs| ==> '\n' !in bs[i].content && SingleLine(bs[i].children)
  }

  lemma {:induction false} OutlineSize(bs: seq<Block>, depth: nat)
    ensures |Outline(bs, depth)| == Size(bs)
    decreases bs
  {
    if bs != [] {
      OutlineSize(bs[0].children, depth + 1);
      OutlineSize(bs[1..], depth);
    }
  }

  /** Indenting an outline by two spaces is the outline one level deeper. */
  lemma {:induction false} IndentOutline(bs: seq<Block>, depth: nat)
    ensures Indent(Outline(bs, depth)) == Outline(bs, depth + 1)
    decreases bs
  {
    if bs != [] {
      var b := bs[0];
      IndentOutline(b.children, depth + 1);
      IndentOutline(bs[1..], depth);
      assert "  " + Spaces(2 * depth) == Spaces(2 * (depth + 1));
      var head := [Spaces(2 * depth) + b.content];
      var kids := Outline(b.children, depth + 1);
      var rest := Outline(bs[1..], depth);
      assert Outline(bs, depth) == head + kids + rest;
      assert Outline(bs, depth + 1) ==
        [Spaces(2 * (depth + 1)) + b.content] + Outline(b.children, depth + 2) + Outline(bs[1..], depth + 1);
      assert "  " + (Spaces(2 * depth) + b.content) == Spaces(2 * (depth + 1)) + b.content;
    }
  }

  /** `processBlocks([])` is the empty string. */
  lemma ProcessBlocksEmpty()
    ensures ProcessBlocks([]) == ""
  {
  }

  /** A block without children renders as exactly its content. */
  lemma RenderLeaf(b: Block)
    requires |b.children| == 0
    ensures ProcessBlocks([b]) == b.content
  {
    ProcessBlocksCons([b]);
  }

  /** Sibling renderings are joined with a newline, in input order. */
  lemma ProcessBlocksCons(bs: seq<Block>)
    requires |bs| >= 1
    ensures |bs| == 1 ==> ProcessBlocks(bs) == RenderBlock(bs[0])
    ensures |bs| > 1 ==> ProcessBlocks(bs) == RenderBlock(bs[0]) + "\n" + ProcessBlocks(bs[1..])
  {
    var r := RenderAll(bs);
    assert r[0] == RenderBlock(bs[0]) && r[1..] == RenderAll(bs[1..]);
  }

  /**
   * A block with children renders as the lines of its content followed by
   * every line of its children's rendering, each prefixed with two spaces.
   * This holds whatever newlines the content holds.
   */
  lemma RenderParentLines(b: Block)
    requires |b.children| > 0
    ensures Split(RenderBlock(b), '\n') == Split(b.content, '\n') + Indent(Split(ProcessBlocks(b.children), '\n'))
  {
    var lines := Indent(Split(ProcessBlocks(b.children), '\n'));
    forall i | 0 <= i < |lines| ensures '\n' !in lines[i] {
      assert lines[i] == "  " + Split(ProcessBlocks(b.children), '\n')[i];
    }
    SplitAppend(b.content, Join(lines, "\n"), '\n');
    SplitJoin(lines, '\n');
  }

  lemma {:induction false} NoSeparatorSplit(s: string, sep: char)
    requires sep !in s
    ensures Split(s, sep) == [s]
    decreases |s|
  {
    if s != [] {
      NoSeparatorSplit(s[1..], sep);
      assert [s[0]] + s[1..] == s;
    }
  }

  /**
   * When no content holds a newline, the lines of `processBlocks` are the
   * outline: one line per block, a block at depth `d` preceded by `2 d`
   * spaces, in pre-order.
   */
  lemma {:induction false} ProcessBlocksOutline(bs: seq<Block>)
    requires |bs| >= 1 && SingleLine(bs)
    ensures Split(ProcessBlocks(bs), '\n') == Outline(bs, 0)
    ensures |Split(ProcessBlocks(bs), '\n')| == Size(bs)
    decreases bs
  {
    var b := bs[0];
    SingleLineParts(bs);
    ProcessBlocksCons(bs);
    RenderBlockOutline(b);
    if |bs| > 1 {
      ProcessBlocksOutline(bs[1..]);
      SplitAppend(RenderBlock(b), ProcessBlocks(bs[1..]), '\n');
    } else {
      assert bs[1..] == [];
    }
    OutlineSize(bs, 0);
  }

  /** The lines of one single-line block's rendering are its outline. */
  lemma {:induction false} RenderBlockOutline(b: Block)
    requires '\n' !in b.content && SingleLine(b.children)
    ensures Split(RenderBlock(b), '\n') == OutlineBlock(b, 0)
    decreases b
  {
    NoSeparatorSplit(b.content, '\n');
    if |b.children| == 0 {
      assert Outline(b.children, 1) == [];
    } else {
      RenderParentLines(b);
      ProcessBlocksOutline(b.children);
      IndentOutline(b.children, 0);
    }
    assert Spaces(0) + b.content == b.content;
  }

  lemma SingleLineParts(bs: seq<Block>)
    requires |bs| >= 1 && SingleLine(bs)
    ensures '\n' !in bs[0].content && SingleLine(bs[0].children) && SingleLine(bs[1..])
  {
    forall i | 0 <= i < |bs[1..]|
      ensures '\n' !in bs[1..][i].content && SingleLine(bs[1..][i].children)
    {
      assert bs[1..][i] == bs[i + 1];
    }
  }

  /** An agent page as the agent-list query pulls it. */
  datatype Page = Page(uuid: string, name: string, description: Option<string>)

  datatype AgentInfo = AgentInfo(id: string, name: string, description: string)

  const NoDescription := "No description available"

  /** `Array.prototype.flat()` one level deep. */
  function Flat<T>(rows: seq<seq<T>>): (r: seq<T>)
    ensures forall i, j :: 0 <= i < |rows| && 0 <= j < |rows[i]| ==> rows[i][j] in r
    decreases |rows|
  {
    if rows == [] then [] else rows[0] + Flat(rows[1..])
  }

  /** Everything in the flattened list comes from some row. */
  lemma {:induction false} FlatOnlyRows<T>(rows: seq<seq<T>>, x: T)
    requires x in Flat(rows)
    ensures exists i :: 0 <= i < |rows| && x in rows[i]
    decreases |rows|
  {
    if x !in rows[0] {
      FlatOnlyRows(rows[1..], x);
      var i :| 0 <= i < |rows[1..]| && x in rows[1..][i];
      assert rows[1..][i] == rows[i + 1];
    }
  }

  /** One row flattens to itself: its elements, once each, in their order. */
  lemma FlatRow<T>(row: seq<T>)
    ensures Flat([row]) == row
  {
    assert [row][1..] == [];
    assert row + [] == row;
  }

  /** Flattening distributes over concatenation; with `FlatRow` this fixes `Flat` on every input. */
  lemma {:induction false} FlatAppend<T>(a: seq<seq<T>>, b: seq<seq<T>>)
    ensures Flat(a + b) == Flat(a) + Flat(b)
    decreases |a|
  {
    if a == [] {
      assert a + b == b;
    } else {
      assert (a + b)[1..] == a[1..] + b;
      FlatAppend(a[1..], b);
    }
  }

  /** The description is used unless it is missing or empty (falsy). */
  function ToAgent(p: Page): (a: AgentInfo)
    ensures a.id == p.uuid && a.name == p.name
    ensures a.description != ""
    ensures p.description.Some? && p.description.value != "" ==> a.description == p.description.value
    ensures p.description.None? || p.description.value == "" ==> a.description == NoDescription
  {
    var description := if p.description.Some? && p.description.value != "" then p.description.value else NoDescription;
    AgentInfo(p.uuid, p.name, description)
  }

  /** The `agents` memo (AgentContext.tsx:61-67): one `AgentInfo` per page, in order. */
  function Agents(rows: seq<seq<Page>>): (agents: seq<AgentInfo>)
    ensures |agents| == |Flat(rows)|
    ensures forall i :: 0 <= i < |agents| ==>
              agents[i].id == Flat(rows)[i].uuid && agents[i].name == Flat(rows)[i].name
              && agents[i].description != ""
    ensures forall i :: 0 <= i < |agents| ==> agents[i] == ToAgent(Flat(rows)[i])
  {
    var pages := Flat(rows);
    seq(|pages|, i requires 0 <= i < |pages| => ToAgent(pages[i]))
  }

  /** The mapping preserves the order of the result rows. */
  lemma AgentsAppend(a: seq<seq<Page>>, b: seq<seq<Page>>)
    ensures Agents(a + b) == Agents(a) + Agents(b)
  {
    FlatAppend(a, b);
  }

  /** Flattening rows of one element each lists those elements, in order. */
  lemma {:induction false} FlatSingletons<T>(rows: seq<seq<T>>)
    requires forall i :: 0 <= i < |rows| ==> |rows[i]| == 1
    ensures |Flat(rows)| == |rows|
    ensures forall i :: 0 <= i < |rows| ==> Flat(rows)[i] == rows[i][0]
    decreases |rows|
  {
    if rows != [] {
      var rest := rows[1..];
      assert forall i :: 0 <= i < |rest| ==> |rest[i]| == 1 by {
        forall i | 0 <= i < |rest| ensures |rest[i]| == 1 {
          assert rest[i] == rows[i + 1];
        }
      }
      FlatSingletons(rest);
      assert Flat(rows) == rows[0] + Flat(rest);
      assert rows[0] == [rows[0][0]];
      forall i | 0 <= i < |rows| ensures Flat(rows)[i] == rows[i][0] {
        if i > 0 {
          assert Flat(rows)[i] == Flat(rest)[i - 1];
          assert rest[i - 1] == rows[i];
        }
      }
    }
  }

  /** The agent-list query yields one page per row: then there is one agent per row. */
  lemma AgentsOfSingletonRows(rows: seq<seq<Page>>)
    requires forall i :: 0 <= i < |rows| ==> |rows[i]| == 1
    ensures |Agents(rows)| == |rows|
    ensures forall i :: 0 <= i < |rows| ==> Agents(rows)[i] == ToAgent(rows[i][0])
  {
    FlatSingletons(rows);
  }

  /** The text of the system-prompt query (AgentContext.tsx:118-125) before and after the name. */
  const QueryPrefix := "\n    [:find (pull ?b [:block/content :block/properties {:block/_parent ...}])\n     :where\n     [?p :block/name \""
  const QuerySuffix := "\"]\n     [?parent :block/page ?p]\n     [?parent :block/content \"## System Prompt\"]\n     [?b :block/parent ?parent]]\n  "

  /** `enabled: Boolean(agentInfo?.name)` (AgentContext.tsx:131). */
  predicate QueryEnabled(agent: Option<AgentInfo>)
  {
    agent.Some? && agent.value.name != ""
  }

  /** The query memo of `useAgent` (AgentContext.tsx:116-126): empty without a name. */
  function AgentQuery(agent: Option<AgentInfo>): (q: string)
    ensures q == "" <==> !QueryEnabled(agent)
    ensures QueryEnabled(agent) ==>
              |q| == |QueryPrefix| + |agent.value.name| + |QuerySuffix|
              && q[..|QueryPrefix|] == QueryPrefix
              && q[|QueryPrefix|..|q| - |QuerySuffix|] == agent.value.name
              && q[|q| - |QuerySuffix|..] == QuerySuffix
  {
    if !QueryEnabled(agent) then ""
    else
      var q := QueryPrefix + agent.value.name + QuerySuffix;
      assert q[..|QueryPrefix|] == QueryPrefix;
      assert q[|QueryPrefix|..|q| - |QuerySuffix|] == agent.value.name;
      assert q[|q| - |QuerySuffix|..] == QuerySuffix;
      q
  }

  /**
   * The name is embedded verbatim, so two enabled agents share a query
   * exactly when they share a name: the query changes, and the hook
   * re-subscribes, exactly when the name changes.
   */
  lemma AgentQueryDeterminesName(a: Option<AgentInfo>, b: Option<AgentInfo>)
    requires QueryEnabled(a) && QueryEnabled(b)
    ensures AgentQuery(a) == AgentQuery(b) <==> a.value.name == b.value.name
  {
  }
}

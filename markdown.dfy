/**
 * The line segmentation done by the chat console's `renderMarkdown`: the
 * reply is split into lines; a line starting with three backticks opens or
 * closes a fenced code block; the lines inside a closed block become one
 * code element and every other line becomes one paragraph.
 */
module Markdown {
  import opened Wrappers
  import opened Text

  /** One rendered element: a `<p>` holding a line, or a `<pre><code>` holding a block. */
  datatype Element = Paragraph(text: string) | CodeBlock(code: string)

  const Fence: string := "```"

  predicate IsFence(line: string) {
    StartsWith(line, Fence)
  }

  predicate NoFence(lines: seq<string>) {
    forall j :: 0 <= j < |lines| ==> !IsFence(lines[j])
  }

  /** The text of a code block: every inner line followed by a newline. */
  function CodeText(lines: seq<string>): string
    decreases |lines|
  {
    if lines == [] then "" else lines[0] + "\n" + CodeText(lines[1..])
  }

  /** The index of the first fence line, if there is one. */
  function NextFence(lines: seq<string>): (r: Option<nat>)
    ensures r.Some? ==> r.value < |lines| && IsFence(lines[r.value]) && NoFence(lines[..r.value])
    ensures r.None? ==> NoFence(lines)
    decreases |lines|
  {
    if lines == [] then None
    else if IsFence(lines[0]) then Some(0)
    else match NextFence(lines[1..])
      case None => None
      case Some(k) => Some(k + 1)
  }

  /**
   * What a sequence of lines renders to, read block by block: a fence
   * followed later by another fence is one code block; a fence never closed
   * renders nothing from there on; any other line is a paragraph.
   */
  function Blocks(lines: seq<string>): (r: seq<Element>)
    ensures |r| <= |lines|
    decreases |lines|
  {
    if lines == [] then []
    else if IsFence(lines[0]) then InBlock("", lines[1..])
    else [Paragraph(lines[0])] + Blocks(lines[1..])
  }

  /** What the rest renders to inside an open block that has collected `code` so far. */
  function InBlock(code: string, rest: seq<string>): (r: seq<Element>)
    ensures |r| <= |rest|
    decreases |rest|, 0
  {
    match NextFence(rest)
    case None => []
    case Some(k) => [CodeBlock(code + CodeText(rest[..k]))] + Blocks(rest[k + 1..])
  }

  /**
   * The `forEach` over the lines, with its `inCodeBlock` and `codeContent`
   * variables and its `elements` array. (The source also reads a language
   * name off the opening fence; it is never rendered, so it is not kept.)
   */
  method RenderMarkdown(content: string) returns (elements: seq<Element>)
    ensures elements == Blocks(Split(content, '\n'))
  {
    var lines := Split(content, '\n');
    elements := [];
    var inCodeBlock := false;
    var codeContent := "";
    for i := 0 to |lines|
      invariant !inCodeBlock ==> elements + Blocks(lines[i..]) == Blocks(lines)
      invariant inCodeBlock ==> elements + InBlock(codeContent, lines[i..]) == Blocks(lines)
    {
      var line := lines[i];
      ghost var rest := lines[i..];
      assert rest[0] == line && rest[1..] == lines[i + 1..];
      if IsFence(line) {
        if !inCodeBlock {
          inCodeBlock := true;
          codeContent := "";
        } else {
          OpenBlockAtFence(codeContent, rest);
          elements := elements + [CodeBlock(codeContent)];
          inCodeBlock := false;
        }
      } else if inCodeBlock {
        OpenBlockAtLine(codeContent, rest);
        codeContent := codeContent + line + "\n";
      } else {
        elements := elements + [Paragraph(line)];
      }
    }
    assert lines[|lines|..] == [];
  }

  /** Inside a block, a fence closes it with what has been collected. */
  lemma OpenBlockAtFence(code: string, rest: seq<string>)
    requires rest != [] && IsFence(rest[0])
    ensures InBlock(code, rest) == [CodeBlock(code)] + Blocks(rest[1..])
  {
    assert NextFence(rest) == Some(0);
    assert rest[..0] == [];
    assert code + CodeText([]) == code;
  }

  /** Inside a block, any other line is collected, followed by a newline. */
  lemma OpenBlockAtLine(code: string, rest: seq<string>)
    requires rest != [] && !IsFence(rest[0])
    ensures InBlock(code, rest) == InBlock(code + rest[0] + "\n", rest[1..])
  {
    match NextFence(rest[1..])
    case None =>
      assert NextFence(rest) == None;
    case Some(k) =>
      assert NextFence(rest) == Some(k + 1);
      assert rest[..k + 1][1..] == rest[1..][..k];
      assert CodeText(rest[..k + 1]) == rest[0] + "\n" + CodeText(rest[1..][..k]);
      assert code + CodeText(rest[..k + 1]) == code + rest[0] + "\n" + CodeText(rest[1..][..k]);
      assert rest[k + 2..] == rest[1..][k + 1..];
  }

  /** A line that is not a fence, outside a block, renders as one paragraph. */
  lemma ParagraphLine(line: string, rest: seq<string>)
    requires !IsFence(line)
    ensures Blocks([line] + rest) == [Paragraph(line)] + Blocks(rest)
  {
    assert ([line] + rest)[1..] == rest;
  }

  /** The first fence of `inner + [fence] + tail`, when `inner` has none, is the one after `inner`. */
  lemma {:induction false} NextFenceAfter(inner: seq<string>, fence: string, tail: seq<string>)
    requires NoFence(inner) && IsFence(fence)
    ensures NextFence(inner + [fence] + tail) == Some(|inner|)
    decreases |inner|
  {
    var all := inner + [fence] + tail;
    if inner == [] {
      assert all[0] == fence;
    } else {
      assert all[0] == inner[0];
      assert all[1..] == inner[1..] + [fence] + tail;
      NextFenceAfter(inner[1..], fence, tail);
    }
  }

  /**
   * A closed block renders as one code element holding its inner lines,
   * each followed by a newline; the fences themselves render nothing.
   */
  lemma ClosedBlock(open: string, inner: seq<string>, close: string, rest: seq<string>)
    requires IsFence(open) && IsFence(close) && NoFence(inner)
    ensures Blocks([open] + inner + [close] + rest) == [CodeBlock(CodeText(inner))] + Blocks(rest)
  {
    var all := [open] + inner + [close] + rest;
    assert all[1..] == inner + [close] + rest;
    NextFenceAfter(inner, close, rest);
    assert all[1..][..|inner|] == inner;
    assert all[1..][|inner| + 1..] == rest;
    assert "" + CodeText(inner) == CodeText(inner);
  }

  /** A block that is never closed renders nothing, not even the lines inside it. */
  lemma Unterminated(open: string, rest: seq<string>)
    requires IsFence(open) && NoFence(rest)
    ensures Blocks([open] + rest) == []
  {
    assert ([open] + rest)[1..] == rest;
    assert NextFence(rest) == None;
  }

  /** Without fences, every line renders as its own paragraph, in order. */
  lemma {:induction false} NoFenceAllParagraphs(lines: seq<string>)
    requires NoFence(lines)
    ensures Blocks(lines) == seq(|lines|, i requires 0 <= i < |lines| => Paragraph(lines[i]))
    decreases |lines|
  {
    if lines != [] {
      NoFenceAllParagraphs(lines[1..]);
    }
  }

  /** Every paragraph rendered holds one of the lines, and never a fence. */
  lemma {:induction false} ParagraphsAreLines(lines: seq<string>)
    ensures forall e :: e in Blocks(lines) && e.Paragraph? ==> e.text in lines && !IsFence(e.text)
    decreases |lines|, 1
  {
    if lines != [] {
      if IsFence(lines[0]) {
        ParagraphsInBlockAreLines("", lines[1..]);
      } else {
        ParagraphsAreLines(lines[1..]);
      }
    }
  }

  lemma {:induction false} ParagraphsInBlockAreLines(code: string, rest: seq<string>)
    ensures forall e :: e in InBlock(code, rest) && e.Paragraph? ==> e.text in rest && !IsFence(e.text)
    decreases |rest|, 0
  {
    match NextFence(rest)
    case None =>
    case Some(k) =>
      ParagraphsAreLines(rest[k + 1..]);
      forall e | e in InBlock(code, rest) && e.Paragraph? ensures e.text in rest {
        assert e in Blocks(rest[k + 1..]);
        var j :| 0 <= j < |rest[k + 1..]| && rest[k + 1..][j] == e.text;
        assert rest[k + 1 + j] == e.text;
      }
  }

  /** A code element's text is its lines joined by newlines, with a final newline. */
  lemma {:induction false} CodeTextIsJoin(inner: seq<string>)
    ensures CodeText(inner) == Join(inner + [""], '\n')
    decreases |inner|
  {
    if inner != [] {
      CodeTextIsJoin(inner[1..]);
      assert (inner + [""])[1..] == inner[1..] + [""];
    }
  }

  /**
   * Splitting a code element's text at its newlines gives back the lines of
   * the block and one empty piece after the last newline.
   */
  lemma CodeTextSplits(inner: seq<string>)
    requires forall j :: 0 <= j < |inner| ==> '\n' !in inner[j]
    ensures Split(CodeText(inner), '\n') == inner + [""]
  {
    CodeTextIsJoin(inner);
    SplitJoin(inner + [""], '\n');
  }
}

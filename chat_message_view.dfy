/**
 * The block structure `ChatMessage` renders: an assistant message is cut into paragraphs at blank
 * lines, and a paragraph holding a dash line becomes an optional title plus list items. A user
 * message stays one block.
 */
module ChatMessageView {
  import opened Shared
  import ChatContext

  const ParagraphBreak: string := "\n\n"
  const BulletBreak: string := "\n- "

  /** `sep` occurs in `s` starting at position `i`. */
  predicate OccursAt(s: string, sep: string, i: int)
  {
    0 <= i <= |s| - |sep| && s[i..i + |sep|] == sep
  }

  /** JavaScript's `s.includes(sep)`, scanning from the left. */
  function Includes(s: string, sep: string): (b: bool)
    ensures b <==> exists i :: OccursAt(s, sep, i)
    decreases |s|
  {
    if |s| < |sep| then false
    else if s[..|sep|] == sep then assert OccursAt(s, sep, 0); true
    else
      var b := Includes(s[1..], sep);
      assert b ==> exists i :: OccursAt(s, sep, i) by {
        if b {
          var k :| OccursAt(s[1..], sep, k);
          assert s[k + 1..k + 1 + |sep|] == s[1..][k..k + |sep|];
          assert OccursAt(s, sep, k + 1);
        }
      }
      assert (exists i :: OccursAt(s, sep, i)) ==> b by {
        if exists i :: OccursAt(s, sep, i) {
          var k :| OccursAt(s, sep, k);
          assert k != 0;
          assert s[1..][k - 1..k - 1 + |sep|] == s[k..k + |sep|];
          assert OccursAt(s[1..], sep, k - 1);
        }
      }
      b
  }

  /**
   * JavaScript's `s.split(sep)` for a non-empty separator: the pieces between the occurrences of
   * `sep` found left to right without overlap. The first piece is a prefix of `s`.
   */
  function Split(s: string, sep: string): (pieces: seq<string>)
    requires sep != []
    ensures |pieces| >= 1
    ensures pieces[0] <= s
    decreases |s|
  {
    if |s| < |sep| then [s]
    else if s[..|sep|] == sep then [""] + Split(s[|sep|..], sep)
    else
      var rest := Split(s[1..], sep);
      [[s[0]] + rest[0]] + rest[1..]
  }

  /** JavaScript's `pieces.join(sep)`. */
  function Join(pieces: seq<string>, sep: string): string
    requires |pieces| >= 1
  {
    if |pieces| == 1 then pieces[0] else pieces[0] + sep + Join(pieces[1..], sep)
  }

  lemma JoinCons(head: string, tail: seq<string>, sep: string)
    requires |tail| >= 1
    ensures Join([head] + tail, sep) == head + sep + Join(tail, sep)
  {
    assert ([head] + tail)[1..] == tail;
  }

  lemma JoinGrowsHead(c: char, pieces: seq<string>, sep: string)
    requires |pieces| >= 1
    ensures Join([[c] + pieces[0]] + pieces[1..], sep) == [c] + Join(pieces, sep)
  {
    if |pieces| > 1 {
      JoinCons([c] + pieces[0], pieces[1..], sep);
    }
  }

  /** Joining the pieces with the separator gives back the original text. */
  lemma {:induction false} JoinSplit(s: string, sep: string)
    requires sep != []
    ensures Join(Split(s, sep), sep) == s
    decreases |s|
  {
    if |s| < |sep| {
    } else if s[..|sep|] == sep {
      JoinSplit(s[|sep|..], sep);
      SeparatorStep(s, sep);
    } else {
      JoinSplit(s[1..], sep);
      CharacterStep(s, sep);
    }
  }

  /** The round-trip step when the text starts with the separator. */
  lemma SeparatorStep(s: string, sep: string)
    requires sep != [] && |sep| <= |s| && s[..|sep|] == sep
    requires Join(Split(s[|sep|..], sep), sep) == s[|sep|..]
    ensures Join(Split(s, sep), sep) == s
  {
    var rest := Split(s[|sep|..], sep);
    assert Split(s, sep) == [""] + rest;
    JoinCons("", rest, sep);
    PrefixThenRest(s, sep);
  }

  lemma PrefixThenRest(s: string, sep: string)
    requires |sep| <= |s| && s[..|sep|] == sep
    ensures "" + sep + s[|sep|..] == s
  {
    assert s[..|sep|] + s[|sep|..] == s;
  }

  /** The round-trip step when the text does not start with the separator. */
  lemma CharacterStep(s: string, sep: string)
    requires sep != [] && |sep| <= |s| && s[..|sep|] != sep
    requires Join(Split(s[1..], sep), sep) == s[1..]
    ensures Join(Split(s, sep), sep) == s
  {
    JoinGrowsHead(s[0], Split(s[1..], sep), sep);
    assert s == [s[0]] + s[1..];
  }

  /** The first piece ends at the leftmost occurrence of the separator: none starts inside it, and one starts right after it when there is more than one piece. */
  lemma {:induction false} FirstPieceEndsAtFirstOccurrence(s: string, sep: string)
    requires sep != []
    ensures forall i | 0 <= i < |Split(s, sep)[0]| :: !OccursAt(s, sep, i)
    ensures |Split(s, sep)| > 1 ==> OccursAt(s, sep, |Split(s, sep)[0]|)
    decreases |s|
  {
    if |s| < |sep| {
    } else if s[..|sep|] == sep {
      assert OccursAt(s, sep, 0);
    } else {
      var rest := Split(s[1..], sep);
      FirstPieceEndsAtFirstOccurrence(s[1..], sep);
      assert Split(s, sep) == [[s[0]] + rest[0]] + rest[1..];
      FirstOccurrenceStep(s, sep, rest[0], |rest| > 1);
    }
  }

  /** The step of `FirstPieceEndsAtFirstOccurrence` when the text does not start with the separator and the tail's first piece is `tailHead`. */
  lemma FirstOccurrenceStep(s: string, sep: string, tailHead: string, more: bool)
    requires |sep| <= |s| && s[..|sep|] != sep
    requires forall i | 0 <= i < |tailHead| :: !OccursAt(s[1..], sep, i)
    requires more ==> OccursAt(s[1..], sep, |tailHead|)
    ensures forall i | 0 <= i < |tailHead| + 1 :: !OccursAt(s, sep, i)
    ensures more ==> OccursAt(s, sep, |tailHead| + 1)
  {
    forall i | 0 <= i < |tailHead| + 1 ensures !OccursAt(s, sep, i) {
      if i > 0 {
        ShiftOccurs(s, sep, i);
      }
    }
    if more {
      ShiftOccurs(s, sep, |tailHead| + 1);
    }
  }

  /** An occurrence past the first character is an occurrence in the tail, one position earlier. */
  lemma ShiftOccurs(s: string, sep: string, i: int)
    requires 0 < i && |s| >= 1
    ensures OccursAt(s, sep, i) <==> OccursAt(s[1..], sep, i - 1)
  {
    if 0 <= i <= |s| - |sep| {
      assert s[1..][i - 1..i - 1 + |sep|] == s[i..i + |sep|];
    }
  }

  /** After the first piece and the separator that ends it, the remaining pieces are the split of the remaining text. */
  lemma {:induction false} RestSplitsRest(s: string, sep: string)
    requires sep != []
    ensures |Split(s, sep)| > 1 ==>
      && |Split(s, sep)[0]| + |sep| <= |s|
      && Split(s, sep)[1..] == Split(s[|Split(s, sep)[0]| + |sep|..], sep)
    decreases |s|
  {
    if |s| < |sep| {
    } else if s[..|sep|] == sep {
      assert Split(s, sep) == [""] + Split(s[|sep|..], sep);
    } else {
      var rest := Split(s[1..], sep);
      RestSplitsRest(s[1..], sep);
      assert Split(s, sep) == [[s[0]] + rest[0]] + rest[1..];
      if |rest| > 1 {
        var k := |rest[0]|;
        assert s[1..][k + |sep|..] == s[k + 1 + |sep|..];
      }
    }
  }

  /** No piece contains the separator. */
  lemma {:induction false} PiecesLackSeparator(s: string, sep: string)
    requires sep != []
    ensures forall k | 0 <= k < |Split(s, sep)| :: !Includes(Split(s, sep)[k], sep)
    decreases |s|
  {
    var pieces := Split(s, sep);
    if |s| < |sep| {
    } else if s[..|sep|] == sep {
      PiecesLackSeparator(s[|sep|..], sep);
      assert forall k | 1 <= k < |pieces| :: pieces[k] == Split(s[|sep|..], sep)[k - 1];
    } else {
      var rest := Split(s[1..], sep);
      PiecesLackSeparator(s[1..], sep);
      assert forall k | 1 <= k < |pieces| :: pieces[k] == rest[k];
      var head := [s[0]] + rest[0];
      assert head <= s;
      forall i | 0 <= i <= |head| - |sep| ensures !OccursAt(head, sep, i) {
        if i == 0 {
          assert head[..|sep|] == s[..|sep|];
        } else {
          assert head[i..i + |sep|] == rest[0][i - 1..i - 1 + |sep|];
          assert !OccursAt(rest[0], sep, i - 1);
        }
      }
    }
  }

  /** The text splits into more than one piece exactly when it contains the separator. */
  lemma {:induction false} SplitsIffIncludes(s: string, sep: string)
    requires sep != []
    ensures |Split(s, sep)| > 1 <==> Includes(s, sep)
    decreases |s|
  {
    if |s| < |sep| {
    } else if s[..|sep|] == sep {
    } else {
      SplitsIffIncludes(s[1..], sep);
    }
  }

  /** What the assistant bubble shows for one paragraph: a bullet list with an optional title line, or the paragraph whole. */
  datatype Block = Paragraph(text: string) | BulletList(title: Option<string>, items: seq<string>)

  /** A rendered message: an assistant bubble of blocks, or a user bubble holding the content unsplit. */
  datatype Bubble = AiBubble(blocks: seq<Block>) | UserBubble(text: string)

  function RenderParagraph(paragraph: string): (b: Block)
    ensures b.Paragraph? <==> !Includes(paragraph, BulletBreak)
    ensures b.Paragraph? ==> b.text == paragraph
    ensures b.BulletList? ==> |b.items| >= 1
  {
    if Includes(paragraph, BulletBreak) then
      var parts := Split(paragraph, BulletBreak);
      SplitsIffIncludes(paragraph, BulletBreak);
      BulletList(if parts[0] == "" then None else Some(parts[0]), parts[1..])
    else Paragraph(paragraph)
  }

  /** The text a block stands for: the title line and the items joined back with the dash separator. */
  function BlockText(b: Block): string
  {
    match b
    case Paragraph(text) => text
    case BulletList(title, items) =>
      Join([if title.Some? then title.value else ""] + items, BulletBreak)
  }

  /**
   * A bullet block's title is the text before the first dash line, shown only when non-empty; its
   * items are the remaining pieces, none holding a dash line; and the block reads back as the paragraph.
   */
  lemma {:induction false} BulletParagraphFacts(paragraph: string)
    requires Includes(paragraph, BulletBreak)
    ensures var b := RenderParagraph(paragraph);
      && b.BulletList?
      && (b.title.None? <==> Split(paragraph, BulletBreak)[0] == "")
      && (b.title.Some? ==> b.title.value != "" && b.title.value <= paragraph && !Includes(b.title.value, BulletBreak))
      && (forall j | 0 <= j < |b.items| :: !Includes(b.items[j], BulletBreak))
      && BlockText(b) == paragraph
  {
    var parts := Split(paragraph, BulletBreak);
    SplitsIffIncludes(paragraph, BulletBreak);
    PiecesLackSeparator(paragraph, BulletBreak);
    JoinSplit(paragraph, BulletBreak);
    var b := RenderParagraph(paragraph);
    assert [if b.title.Some? then b.title.value else ""] + b.items == parts;
    assert forall j | 0 <= j < |b.items| :: b.items[j] == parts[j + 1];
  }

  /** Every block reads back as its paragraph. */
  lemma RenderParagraphRoundTrip(paragraph: string)
    ensures BlockText(RenderParagraph(paragraph)) == paragraph
  {
    if Includes(paragraph, BulletBreak) {
      BulletParagraphFacts(paragraph);
    }
  }

  function RenderBlocks(paragraphs: seq<string>): (blocks: seq<Block>)
    ensures |blocks| == |paragraphs|
    ensures forall i | 0 <= i < |paragraphs| :: blocks[i] == RenderParagraph(paragraphs[i])
  {
    seq(|paragraphs|, i requires 0 <= i < |paragraphs| => RenderParagraph(paragraphs[i]))
  }

  /** `ChatMessage`: only messages from the assistant are split into paragraphs and lists. */
  function Render(message: ChatContext.Message): (bubble: Bubble)
    ensures message.sender.User? ==> bubble == UserBubble(message.content)
    ensures message.sender.Ai? ==> bubble.AiBubble?
  {
    if message.sender.Ai? then AiBubble(RenderBlocks(Split(message.content, ParagraphBreak)))
    else UserBubble(message.content)
  }

  /** Reading the blocks of a bubble back, joined with blank lines, gives the message content. */
  function BubbleText(bubble: Bubble): string
  {
    match bubble
    case UserBubble(text) => text
    case AiBubble(blocks) =>
      if |blocks| == 0 then "" else Join(seq(|blocks|, i requires 0 <= i < |blocks| => BlockText(blocks[i])), ParagraphBreak)
  }

  /**
   * An assistant message has one block per blank-line-separated paragraph, in order, none of them
   * spanning a blank line, and the blocks read back as the content; a user message is the content.
   */
  lemma {:induction false} RenderRoundTrip(message: ChatContext.Message)
    ensures BubbleText(Render(message)) == message.content
    ensures message.sender.Ai? ==>
      var paragraphs := Split(message.content, ParagraphBreak);
      && |Render(message).blocks| == |paragraphs|
      && (forall i | 0 <= i < |paragraphs| :: !Includes(paragraphs[i], ParagraphBreak))
      && (|paragraphs| > 1 <==> Includes(message.content, ParagraphBreak))
  {
    if message.sender.Ai? {
      var paragraphs := Split(message.content, ParagraphBreak);
      var blocks := Render(message).blocks;
      var texts := seq(|blocks|, i requires 0 <= i < |blocks| => BlockText(blocks[i]));
      forall i | 0 <= i < |paragraphs| ensures texts[i] == paragraphs[i] {
        RenderParagraphRoundTrip(paragraphs[i]);
      }
      assert texts == paragraphs;
      JoinSplit(message.content, ParagraphBreak);
      PiecesLackSeparator(message.content, ParagraphBreak);
      SplitsIffIncludes(message.content, ParagraphBreak);
    }
  }
}

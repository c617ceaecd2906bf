/**
 * Session transcripts as the hooks read them: one JSON entry per line, each with a `type`, and
 * the text blocks of a message's content.
 */
module Transcripts {
  import opened Common
  import opened Strings
  import opened JsonValues
  import opened Files

  /** A transcript file, one JSON document per line; an empty line does not parse either. */
  type Transcript = seq<Doc>

  /** `entry.type === t`. */
  predicate HasType(m: Json, t: string)
  {
    Field(m, "type") == JStr(t)
  }

  /** `block.text`. */
  function TextOf(block: Json): Json
  {
    Field(block, "text")
  }

  /** The `text` of the text blocks, in order. */
  function TextsIn(blocks: seq<Json>): (texts: seq<Json>)
    ensures |texts| <= |blocks|
  {
    if blocks == [] then []
    else
      var last := blocks[|blocks| - 1];
      TextsIn(blocks[..|blocks| - 1]) + if HasType(last, "text") then [TextOf(last)] else []
  }

  /** Every text block gives its text, and every text comes from one. */
  lemma {:induction false} TextsInKept(blocks: seq<Json>)
    ensures forall b :: b in blocks && HasType(b, "text") ==> TextOf(b) in TextsIn(blocks)
    ensures forall t :: t in TextsIn(blocks) ==> exists b :: b in blocks && HasType(b, "text") && t == TextOf(b)
  {
    if blocks != [] {
      var init := blocks[..|blocks| - 1];
      TextsInKept(init);
      assert blocks == init + [blocks[|blocks| - 1]];
    }
  }

  /** One more block at the end. */
  lemma TextsStep(blocks: seq<Json>, b: Json)
    ensures TextsIn(blocks + [b]) == TextsIn(blocks) + if HasType(b, "text") then [TextOf(b)] else []
  {
    Snoc(blocks, b);
  }

  /** Texts of a concatenation of block lists. */
  lemma {:induction false} TextsAppend(a: seq<Json>, b: seq<Json>)
    ensures TextsIn(a + b) == TextsIn(a) + TextsIn(b)
    decreases |b|
  {
    if b != [] {
      var init := b[..|b| - 1];
      var last := b[|b| - 1];
      TextsAppend(a, init);
      assert a + b == (a + init) + [last];
      TextsStep(a + init, last);
      assert b == init + [last];
      TextsStep(init, last);
      var t := if HasType(last, "text") then [TextOf(last)] else [];
      AppendAssoc(TextsIn(a), TextsIn(init), t);
    } else {
      assert a + b == a;
    }
  }

  /**
   * The text of a message's content as the hooks read it: the texts of its text blocks joined
   * by newlines, a string as it is, and the empty text otherwise; `None` when a `null` block
   * makes reading `block.type` throw.
   */
  function MessageText(content: Json): Option<string>
  {
    match content
    case JArr(items) => if JNull in items then None else Some(JoinValues(TextsIn(items), "\n"))
    case JStr(s) => Some(s)
    case _ => Some("")
  }
}

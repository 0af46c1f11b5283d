/** The text and manual-page writers (`text_visit_shoebot` and
    `man_visit_shoebot` in sphinxcontrib/shoebot.py): neither draws anything;
    each writes one bracketed placeholder naming the picture by its `alt`
    text, when the node has one, and skips the node. */
module Placeholders {
  import opened Wrappers
  import opened Directive

  const Opening := "[shoebot"
  const Separator := ": "
  const Closing := "]"

  /** The placeholder for a node: `[shoebot: <alt>]` when the node carries an
      `alt` attribute, `[shoebot]` otherwise. */
  function Placeholder(alt: Option<string>): string {
    match alt
    case Some(a) => Opening + Separator + a + Closing
    case None => Opening + Closing
  }

  /** Reads a placeholder back: `Some(alt)` for the text `Placeholder(alt)`,
      `None` for a text that is no placeholder. */
  function ReadPlaceholder(s: string): (r: Option<Option<string>>)
    ensures r.Some? ==> |s| >= |Opening + Closing| && s[..|Opening|] == Opening && s[|s| - 1] == ']'
  {
    if s == Opening + Closing then Some(None)
    else if |s| >= |Opening + Separator| + 1 && s[..|Opening + Separator|] == Opening + Separator && s[|s| - 1] == ']' then
      Some(Some(s[|Opening + Separator|..|s| - 1]))
    else None
  }

  /** Every placeholder reads back as the `alt` it was written from. */
  lemma ReadPlaceholderRoundTrip(alt: Option<string>)
    ensures ReadPlaceholder(Placeholder(alt)) == Some(alt)
  {
    var s := Placeholder(alt);
    match alt
    case None =>
    case Some(a) =>
      assert |s| != |Opening + Closing|;
      assert s[..|Opening + Separator|] == Opening + Separator;
      assert s[|Opening + Separator|..|s| - 1] == a;
  }

  /** Only placeholders read back, and each reads back as the `alt` it shows. */
  lemma ReadPlaceholderSound(s: string)
    ensures ReadPlaceholder(s).Some? ==> Placeholder(ReadPlaceholder(s).value) == s
  {
    match ReadPlaceholder(s)
    case None =>
    case Some(None) =>
    case Some(Some(a)) =>
      var n := |Opening + Separator|;
      assert s == s[..n] + s[n..|s| - 1] + s[|s| - 1..];
      assert s[|s| - 1..] == Closing;
  }

  /** Two nodes get the same placeholder only when they have the same `alt`:
      in particular a node with an `alt`, even an empty one, never looks like
      a node without. */
  lemma PlaceholderInjective(alt1: Option<string>, alt2: Option<string>)
    ensures Placeholder(alt1) == Placeholder(alt2) <==> alt1 == alt2
  {
    ReadPlaceholderRoundTrip(alt1);
    ReadPlaceholderRoundTrip(alt2);
  }

  /** The plain-text writer: `add_text` appends to the text being built. */
  class TextTranslator {
    var texts: seq<string>

    constructor ()
      ensures texts == []
    {
      texts := [];
    }

    /** `text_visit_shoebot`: adds the placeholder for the node, then the
        node is skipped (its children are not visited). */
    method Visit(node: ShoebotNode)
      modifies this
      ensures texts == old(texts) + [Placeholder(node.alt)]
    {
      if node.alt.Some? {
        texts := texts + [Opening + Separator + node.alt.value + Closing];
      } else {
        texts := texts + [Opening + Closing];
      }
    }
  }

  /** The manual-page writer: its output is the list `body`. */
  class ManTranslator {
    var body: seq<string>

    constructor ()
      ensures body == []
    {
      body := [];
    }

    /** `man_visit_shoebot`: appends the placeholder for the node to the body,
        then the node is skipped. */
    method Visit(node: ShoebotNode)
      modifies this
      ensures body == old(body) + [Placeholder(node.alt)]
    {
      if node.alt.Some? {
        body := body + [Opening + Separator + node.alt.value + Closing];
      } else {
        body := body + [Opening + Closing];
      }
    }
  }
}

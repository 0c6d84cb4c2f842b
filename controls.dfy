/** The toolbar and container computations that both editor components
    write identically: which style buttons show as active, and the class
    of the editor's container. */
module Controls {
  import opened Js
  import opened Draft

  /** One toolbar entry, `{ label, style }` (the label is `caption` here). */
  datatype StyleOption = StyleOption(caption: string, style: string)

  /** The style identifiers of a toolbar, in order. */
  function Styles(options: seq<StyleOption>): (styles: seq<string>)
    ensures |styles| == |options|
    ensures forall i | 0 <= i < |options| :: styles[i] == options[i].style
  {
    if options == [] then [] else [options[0].style] + Styles(options[1..])
  }

  predicate Distinct(xs: seq<string>)
  {
    forall i, j | 0 <= i < j < |xs| :: xs[i] != xs[j]
  }

  /** How many buttons are lit. */
  function CountTrue(flags: seq<bool>): nat
  {
    if flags == [] then 0 else (if flags[0] then 1 else 0) + CountTrue(flags[1..])
  }

  /** `options.map(type => type.style === blockType)`: the `active` flag of
      each block button, in toolbar order. */
  function BlockActiveFlags(options: seq<StyleOption>, blockType: string): (flags: seq<bool>)
    ensures |flags| == |options|
    ensures forall i | 0 <= i < |options| :: flags[i] <==> options[i].style == blockType
  {
    if options == [] then []
    else [options[0].style == blockType] + BlockActiveFlags(options[1..], blockType)
  }

  /** On a toolbar whose styles are distinct, exactly one block button is
      active when the block's type has a button, and none otherwise. */
  lemma {:induction false} BlockActiveCount(options: seq<StyleOption>, blockType: string)
    requires Distinct(Styles(options))
    ensures CountTrue(BlockActiveFlags(options, blockType)) == if blockType in Styles(options) then 1 else 0
  {
    if options != [] {
      var rest := options[1..];
      assert Styles(options) == [options[0].style] + Styles(rest);
      assert Distinct(Styles(rest)) by {
        forall i, j | 0 <= i < j < |rest| ensures Styles(rest)[i] != Styles(rest)[j] {
          assert Styles(options)[i + 1] != Styles(options)[j + 1];
        }
      }
      BlockActiveCount(rest, blockType);
      assert BlockActiveFlags(options, blockType)[1..] == BlockActiveFlags(rest, blockType);
      if options[0].style == blockType {
        assert blockType !in Styles(rest) by {
          forall j | 0 <= j < |rest| ensures Styles(rest)[j] != blockType {
            assert Styles(options)[0] != Styles(options)[j + 1];
          }
        }
      }
    }
  }

  /** `INLINE_STYLES`, the same four entries in both components. */
  const InlineStyles: seq<StyleOption> := [
    StyleOption("Bold", "BOLD"),
    StyleOption("Italic", "ITALIC"),
    StyleOption("Underline", "UNDERLINE"),
    StyleOption("Monospace", "CODE")
  ]

  /** `options.map(type => currentStyle.has(type.style))`. */
  function MembershipFlags(options: seq<StyleOption>, currentStyle: set<string>): (flags: seq<bool>)
    ensures |flags| == |options|
    ensures forall i | 0 <= i < |options| :: flags[i] <==> options[i].style in currentStyle
  {
    if options == [] then []
    else [options[0].style in currentStyle] + MembershipFlags(options[1..], currentStyle)
  }

  /** The `active` flags of the inline buttons for the current state. */
  function InlineButtonsActive(s: EditorState): (flags: seq<bool>)
    ensures |flags| == |InlineStyles|
    ensures forall i | 0 <= i < |InlineStyles| :: flags[i] <==> InlineStyles[i].style in s.inlineStyle
  {
    MembershipFlags(InlineStyles, s.inlineStyle)
  }

  /** The lit inline buttons name exactly the current styles that have a
      button; a current style without one (RED_TEXT, say) lights nothing. */
  lemma ActiveInlineStyles(s: EditorState)
    ensures var flags := InlineButtonsActive(s);
      (set i | 0 <= i < |InlineStyles| && flags[i] :: InlineStyles[i].style)
        == s.inlineStyle * {"BOLD", "ITALIC", "UNDERLINE", "CODE"}
  {
    var flags := InlineButtonsActive(s);
    var lit := set i | 0 <= i < |InlineStyles| && flags[i] :: InlineStyles[i].style;
    forall st | st in s.inlineStyle * {"BOLD", "ITALIC", "UNDERLINE", "CODE"} ensures st in lit {
      var i := if st == "BOLD" then 0 else if st == "ITALIC" then 1 else if st == "UNDERLINE" then 2 else 3;
      assert InlineStyles[i].style == st && flags[i];
    }
  }

  const EditorClass := "RichEditor-editor"
  const HidePlaceholderClass := " RichEditor-hidePlaceholder"

  /** The editor container's `className`: the placeholder is hidden when the
      content has no text and the first block is not a plain paragraph. */
  function EditorClassName(s: EditorState): (className: string)
    ensures className == EditorClass + HidePlaceholderClass <==> !s.hasText && s.firstBlockType != "unstyled"
    ensures className == EditorClass <==> s.hasText || s.firstBlockType == "unstyled"
  {
    EditorClass + (if !s.hasText && s.firstBlockType != "unstyled" then HidePlaceholderClass else "")
  }

  // What follows is a proof device for the `BlockStylesDistinct` lemmas of
  // the two components; it models nothing in the source. Comparing string
  // literals pairwise is costly for the solver, so each style is mapped back
  // to its toolbar position through a small fingerprint instead.

  /** A style's length and its first and ninth characters. */
  function Fingerprint(s: string): (int, char, char)
  {
    if |s| > 8 then (|s|, s[0], s[8]) else (|s|, ' ', ' ')
  }

  /** The position of a block style in the toolbar order that both
      components share (Editor1.jsx's ten entries are the first ten of
      Editor.jsx's eleven), recovered from its fingerprint; -1 otherwise. */
  function BlockStylePosition(style: string): int
  {
    match Fingerprint(style)
    case (10, 'h', 'n') => 0
    case (10, 'h', 'w') => 1
    case (12, 'h', 'h') => 2
    case (11, 'h', 'o') => 3
    case (11, 'h', 'i') => 4
    case (10, 'h', 'i') => 5
    case (10, 'b', 't') => 6
    case (19, 'u', 'd') => 7
    case (17, 'o', 'l') => 8
    case (10, 'c', 'c') => 9
    case (12, 'c', 'o') => 10
    case _ => -1
  }

  /** A toolbar whose every style maps back to its own position has
      pairwise distinct styles. */
  lemma DistinctByPosition(options: seq<StyleOption>)
    requires forall i | 0 <= i < |options| :: BlockStylePosition(options[i].style) == i
    ensures Distinct(Styles(options))
  {
  }
}

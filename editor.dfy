/** src/components/Editor.jsx: the component that performs the markdown-like
    toggles itself from its key binding function and answers "handled". */
module Editor {
  import opened Js
  import opened Draft
  import opened Controls

  /** The depth bound passed to `RichUtils.onTab`. */
  const MaxDepth := 4

  /** The command string this component returns once it has acted. */
  const HandledCommand := "handled"

  /** What `mapKeyToEditorCommand` decides to do for a key code and the text
      of the block holding the selection start. */
  datatype Action =
    | Indent
    | ToggleBlockType(blockType: string)
    | ToggleInlineStyle(inlineStyle: string)
    | PassThrough

  /** The key decision, tested in source order, first match wins. The
      UNDERLINE and RED_TEXT branches sit inside the "* " guard, as in the
      source; the innermost fall-through mirrors the missing `else`. */
  function Classify(keyCode: int, text: string): Action
  {
    if keyCode == TabKey then Indent
    else if keyCode == SpaceKey then
      if StartsWith(text, "#") then ToggleBlockType("header-one")
      else if StartsWith(text, "* ") then
        if StartsWith(text, "*** ") then ToggleInlineStyle("UNDERLINE")
        else if StartsWith(text, "** ") then ToggleInlineStyle("RED_TEXT")
        else if StartsWith(text, "* ") then ToggleInlineStyle("BOLD")
        else PassThrough
      else PassThrough
    else PassThrough
  }

  /** Space after a leading "#" asks for header-one, whatever follows it;
      and header-one is asked for in no other case. */
  lemma HeaderTakesPrecedence(keyCode: int, text: string)
    ensures Classify(keyCode, text) == ToggleBlockType("header-one")
        <==> keyCode == SpaceKey && StartsWith(text, "#")
    ensures Classify(keyCode, text).ToggleBlockType? ==> Classify(keyCode, text).blockType == "header-one"
  {
  }

  /** The UNDERLINE and RED_TEXT toggles can never be chosen: any text that
      passes the "* " guard has a space second, so it starts with neither
      "*** " nor "** ". */
  lemma UnderlineAndRedTextUnreachable(keyCode: int, text: string)
    ensures Classify(keyCode, text) != ToggleInlineStyle("UNDERLINE")
    ensures Classify(keyCode, text) != ToggleInlineStyle("RED_TEXT")
    ensures Classify(keyCode, text).ToggleInlineStyle? ==> Classify(keyCode, text).inlineStyle == "BOLD"
  {
    StarSpaceExcludesLongerMarkers(text);
  }

  /** Space toggles BOLD exactly when the text starts with "* " and not "#". */
  lemma BoldOnStarSpace(keyCode: int, text: string)
    ensures Classify(keyCode, text) == ToggleInlineStyle("BOLD")
        <==> keyCode == SpaceKey && !StartsWith(text, "#") && StartsWith(text, "* ")
  {
    StarSpaceExcludesLongerMarkers(text);
  }

  /** Text such as "** x" or "*** x" gets no toggle at all. */
  lemma DoubleStarFallsThrough(keyCode: int, text: string)
    requires StartsWith(text, "** ") || StartsWith(text, "*** ")
    ensures keyCode != TabKey ==> Classify(keyCode, text) == PassThrough
  {
    assert text[0] == '*' by {
      if StartsWith(text, "** ") { assert text[..3][0] == text[0]; }
      else { assert text[..4][0] == text[0]; }
    }
    assert !StartsWith(text, "* ") by {
      if StartsWith(text, "** ") { assert text[..3][1] == text[1]; }
      else { assert text[..4][1] == text[1]; }
      assert text[1] == '*';
      assert text[..2][1] == '*';
    }
  }

  /** Everything except Tab and a recognised Space marker passes through. */
  lemma PassThroughCases(keyCode: int, text: string)
    ensures Classify(keyCode, text) == PassThrough
        <==> keyCode != TabKey
             && !(keyCode == SpaceKey && (StartsWith(text, "#") || StartsWith(text, "* ")))
  {
    StarSpaceExcludesLongerMarkers(text);
  }

  /** The effect of `mapKeyToEditorCommand` on a state, with the library's
      answers taken from `utils`. When `onTab` hands back the same state the
      Tab branch does not return, and control reaches the default binding. */
  function KeyOutcome(utils: RichUtils, e: KeyEvent, s: EditorState): Outcome
  {
    match Classify(e.keyCode, s.startBlock.text)
    case Indent =>
      var next := utils.onTab(e, s, MaxDepth);
      if next != s then Outcome(next, Some(HandledCommand)) else Outcome(s, utils.getDefaultKeyBinding(e))
    case ToggleBlockType(t) => Outcome(utils.toggleBlockType(s, t), Some(HandledCommand))
    case ToggleInlineStyle(st) => Outcome(utils.toggleInlineStyle(s, st), Some(HandledCommand))
    case PassThrough => Outcome(s, utils.getDefaultKeyBinding(e))
  }

  /** Tab reports "handled" and installs the new state when `onTab`
      returns a different state; otherwise it keeps the state and answers
      whatever `getDefaultKeyBinding(e)` answers. */
  lemma TabOutcome(utils: RichUtils, e: KeyEvent, s: EditorState)
    requires e.keyCode == TabKey
    ensures var next := utils.onTab(e, s, MaxDepth);
      && (next != s ==> KeyOutcome(utils, e, s) == Outcome(next, Some(HandledCommand)))
      && (next == s ==> KeyOutcome(utils, e, s) == Outcome(s, utils.getDefaultKeyBinding(e)))
      && KeyOutcome(utils, e, s).state == next
  {
  }

  /** The binding function either answers "handled" or takes the default
      binding path, and that path leaves the state exactly as it was: any
      answer other than "handled" comes with the old state. */
  lemma UnhandledLeavesStateUnchanged(utils: RichUtils, e: KeyEvent, s: EditorState)
    ensures || KeyOutcome(utils, e, s).binding == Some(HandledCommand)
            || KeyOutcome(utils, e, s) == Outcome(s, utils.getDefaultKeyBinding(e))
    ensures KeyOutcome(utils, e, s).binding != Some(HandledCommand) ==> KeyOutcome(utils, e, s).state == s
  {
  }

  /** The Space key reports "handled" for a leading "#" or "* ", with the
      new state header-one or BOLD toggled on the old one; any other text
      keeps the state and gets the default binding. Unless the default
      binding itself answers "handled", "handled" means a marker was seen. */
  lemma SpaceOutcome(utils: RichUtils, e: KeyEvent, s: EditorState)
    requires e.keyCode == SpaceKey
    ensures var text := s.startBlock.text;
      && (StartsWith(text, "#") || StartsWith(text, "* ") ==>
            KeyOutcome(utils, e, s).binding == Some(HandledCommand))
      && (!StartsWith(text, "#") && !StartsWith(text, "* ") ==>
            KeyOutcome(utils, e, s) == Outcome(s, utils.getDefaultKeyBinding(e)))
      && (StartsWith(text, "#") ==>
            KeyOutcome(utils, e, s).state == utils.toggleBlockType(s, "header-one"))
      && (!StartsWith(text, "#") && StartsWith(text, "* ") ==>
            KeyOutcome(utils, e, s).state == utils.toggleInlineStyle(s, "BOLD"))
    ensures utils.getDefaultKeyBinding(e) != Some(HandledCommand) ==>
      (KeyOutcome(utils, e, s).binding == Some(HandledCommand) <==>
         StartsWith(s.startBlock.text, "#") || StartsWith(s.startBlock.text, "* "))
  {
    StarSpaceExcludesLongerMarkers(s.startBlock.text);
  }

  /** Any key other than Tab and Space answers the default binding and
      changes nothing. */
  lemma OtherKeysPassThrough(utils: RichUtils, e: KeyEvent, s: EditorState)
    requires e.keyCode != TabKey && e.keyCode != SpaceKey
    ensures KeyOutcome(utils, e, s) == Outcome(s, utils.getDefaultKeyBinding(e))
  {
  }

  /** `getBlockStyle`: the CSS class for a block, or `null`. */
  function GetBlockStyle(block: Block): (r: Option<string>)
    ensures r == Some("RichEditor-blockquote") <==> block.blockType == "blockquote"
    ensures block.blockType == "custom-color"
        <==> r.Some? && StartsWith(r.value, "custom-color-")
    ensures r == None <==> block.blockType != "blockquote" && block.blockType != "custom-color"
  {
    assert "RichEditor-blockquote"[0] != "custom-color-"[0];
    match block.blockType
    case "blockquote" => Some("RichEditor-blockquote")
    case "custom-color" =>
      var name := "custom-color-" + DataText(block, "color");
      assert name[0] == 'c' && name[..13] == "custom-color-";
      Some(name)
    case _ => None
  }

  /** The colour datum can be read back from a custom-color block's class,
      so blocks with different colours get different classes. A block
      without a colour datum gets "custom-color-undefined". */
  lemma CustomColorRoundTrip(block: Block, other: Block)
    requires block.blockType == "custom-color" && other.blockType == "custom-color"
    ensures GetBlockStyle(block).Some?
    ensures GetBlockStyle(block).value[|"custom-color-"|..] == DataText(block, "color")
    ensures "color" !in block.data ==> GetBlockStyle(block) == Some("custom-color-undefined")
    ensures GetBlockStyle(block) == GetBlockStyle(other) <==> DataText(block, "color") == DataText(other, "color")
  {
    var p := "custom-color-";
    assert p + "undefined" == "custom-color-undefined";
    if GetBlockStyle(block) == GetBlockStyle(other) {
      assert (p + DataText(block, "color"))[|p|..] == DataText(block, "color");
      assert (p + DataText(other, "color"))[|p|..] == DataText(other, "color");
    }
  }

  /** `BLOCK_TYPES` of this component: eleven entries, ending with the
      custom-color block. */
  const BlockTypes: seq<StyleOption> := [
    StyleOption("H1", "header-one"),
    StyleOption("H2", "header-two"),
    StyleOption("H3", "header-three"),
    StyleOption("H4", "header-four"),
    StyleOption("H5", "header-five"),
    StyleOption("H6", "header-six"),
    StyleOption("Blockquote", "blockquote"),
    StyleOption("UL", "unordered-list-item"),
    StyleOption("OL", "ordered-list-item"),
    StyleOption("Code Block", "code-block"),
    StyleOption("Custom Color", "custom-color")
  ]

  /** The `active` flags of the block buttons: a button is lit iff its
      style is the start block's type, and at most one is lit. */
  function BlockButtonsActive(s: EditorState): (flags: seq<bool>)
    ensures |flags| == |BlockTypes|
    ensures forall i | 0 <= i < |BlockTypes| :: flags[i] <==> BlockTypes[i].style == s.startBlock.blockType
    ensures CountTrue(flags) <= 1
    ensures CountTrue(flags) == 1 <==> s.startBlock.blockType in Styles(BlockTypes)
  {
    BlockStylesDistinct();
    BlockActiveCount(BlockTypes, s.startBlock.blockType);
    BlockActiveFlags(BlockTypes, s.startBlock.blockType)
  }

  /** The eleven block styles are pairwise distinct. */
  lemma BlockStylesDistinct()
    ensures Distinct(Styles(BlockTypes))
  {
    var positions := seq(|BlockTypes|, i requires 0 <= i < |BlockTypes| => BlockStylePosition(BlockTypes[i].style));
    assert positions == [0, 1, 2, 3, 4, 5, 6, 7, 8, 9, 10];
    DistinctByPosition(BlockTypes);
  }


  /** The component: the one `editorState` it holds, and the library it
      hands that state to. */
  class RichEditorExample {
    var editorState: EditorState
    const utils: RichUtils

    constructor (initial: EditorState, utils: RichUtils)
      ensures editorState == initial && this.utils == utils
    {
      editorState := initial;
      this.utils := utils;
    }

    /** `handleKeyCommand`: install the library's answer when it is not
        `null` and report "handled"; otherwise report "not-handled" and keep
        the state. */
    method HandleKeyCommand(command: string) returns (r: HandleValue)
      modifies this
      ensures var next := utils.handleKeyCommand(old(editorState), command);
        && (r == Handled <==> next != null)
        && editorState == (if next != null then next else old(editorState))
    {
      var newState := utils.handleKeyCommand(editorState, command);
      if newState != null {
        editorState := newState;
        return Handled;
      }
      return NotHandled;
    }

    /** `mapKeyToEditorCommand`: act on the decision for the key and the
        start block's text, replacing the state as `KeyOutcome` says. */
    method MapKeyToEditorCommand(e: KeyEvent) returns (b: KeyBinding)
      modifies this
      ensures editorState == KeyOutcome(utils, e, old(editorState)).state
      ensures b == KeyOutcome(utils, e, old(editorState)).binding
    {
      match Classify(e.keyCode, editorState.startBlock.text) {
        case Indent =>
          var newEditorState := utils.onTab(e, editorState, MaxDepth);
          if newEditorState != editorState {
            editorState := newEditorState;
            return Some(HandledCommand);
          }
        case ToggleBlockType(t) =>
          editorState := utils.toggleBlockType(editorState, t);
          return Some(HandledCommand);
        case ToggleInlineStyle(st) =>
          editorState := utils.toggleInlineStyle(editorState, st);
          return Some(HandledCommand);
        case PassThrough =>
      }
      return utils.getDefaultKeyBinding(e);
    }

    /** The block toolbar's callback. */
    method ToggleBlockType(blockType: string)
      modifies this
      ensures editorState == utils.toggleBlockType(old(editorState), blockType)
    {
      editorState := utils.toggleBlockType(editorState, blockType);
    }

    /** The inline toolbar's callback. */
    method ToggleInlineStyle(inlineStyle: string)
      modifies this
      ensures editorState == utils.toggleInlineStyle(old(editorState), inlineStyle)
    {
      editorState := utils.toggleInlineStyle(editorState, inlineStyle);
    }
  }
}

/** src/components/Editor1.jsx: the variant whose key binding function only
    names commands for Space markers and returns `null` for Tab. */
module Editor1 {
  import opened Js
  import opened Draft
  import opened Controls

  /** The depth bound passed to `RichUtils.onTab`. */
  const MaxDepth := 4

  /** The Space decision: the command named for the start block's text, or
      none. Tested in source order; "underline" and "red-line" sit inside
      the "* " guard, as in the source. */
  function SpaceCommand(text: string): Option<string>
  {
    if StartsWith(text, "#") then Some("header")
    else if StartsWith(text, "* ") then
      if StartsWith(text, "*** ") then Some("underline")
      else if StartsWith(text, "** ") then Some("red-line")
      else Some("bold")
    else None
  }

  /** "header" is named exactly when the text starts with "#", ahead of any
      asterisk marker. */
  lemma HeaderCommandTakesPrecedence(text: string)
    ensures SpaceCommand(text) == Some("header") <==> StartsWith(text, "#")
  {
  }

  /** "underline" and "red-line" are never named; "bold" is named exactly
      for a leading "* " without a leading "#". */
  lemma OnlyHeaderAndBoldNamed(text: string)
    ensures SpaceCommand(text) != Some("underline") && SpaceCommand(text) != Some("red-line")
    ensures SpaceCommand(text).Some? ==> SpaceCommand(text).value in {"header", "bold"}
    ensures SpaceCommand(text) == Some("bold") <==> !StartsWith(text, "#") && StartsWith(text, "* ")
    ensures SpaceCommand(text) == None <==> !StartsWith(text, "#") && !StartsWith(text, "* ")
  {
    StarSpaceExcludesLongerMarkers(text);
  }

  /** The effect of `mapKeyToEditorCommand` on a state. Tab installs the
      `onTab` answer when it differs and returns `null`; Space only names a
      command; everything else gets the default binding. */
  function KeyOutcome(utils: RichUtils, e: KeyEvent, s: EditorState): Outcome
  {
    if e.keyCode == TabKey then
      var next := utils.onTab(e, s, MaxDepth);
      Outcome(if next != s then next else s, None)
    else if e.keyCode == SpaceKey && SpaceCommand(s.startBlock.text).Some? then
      Outcome(s, SpaceCommand(s.startBlock.text))
    else
      Outcome(s, utils.getDefaultKeyBinding(e))
  }

  /** Tab always answers `null` from its own branch, without consulting
      `getDefaultKeyBinding`; the state after Tab is whatever `onTab`
      returned, and no other key changes the state. */
  lemma TabReturnsNull(utils: RichUtils, e: KeyEvent, s: EditorState)
    ensures e.keyCode == TabKey ==> KeyOutcome(utils, e, s) == Outcome(utils.onTab(e, s, MaxDepth), None)
    ensures e.keyCode != TabKey ==> KeyOutcome(utils, e, s).state == s
  {
  }

  /** Space with a leading "#" answers "header", with a leading "* " (and no
      "#") answers "bold"; otherwise, and for every key but Tab and Space,
      it answers whatever `getDefaultKeyBinding(e)` answers. */
  lemma SpaceCommands(utils: RichUtils, e: KeyEvent, s: EditorState)
    ensures var text := s.startBlock.text;
      && (e.keyCode == SpaceKey && StartsWith(text, "#") ==>
            KeyOutcome(utils, e, s).binding == Some("header"))
      && (e.keyCode == SpaceKey && !StartsWith(text, "#") && StartsWith(text, "* ") ==>
            KeyOutcome(utils, e, s).binding == Some("bold"))
      && (e.keyCode != TabKey
          && !(e.keyCode == SpaceKey && (StartsWith(text, "#") || StartsWith(text, "* "))) ==>
            KeyOutcome(utils, e, s).binding == utils.getDefaultKeyBinding(e))
  {
    OnlyHeaderAndBoldNamed(s.startBlock.text);
  }

  /** `getBlockStyle`: only blockquotes get a class. */
  function GetBlockStyle(block: Block): (r: Option<string>)
    ensures r == Some("RichEditor-blockquote") <==> block.blockType == "blockquote"
    ensures r == None <==> block.blockType != "blockquote"
  {
    match block.blockType
    case "blockquote" => Some("RichEditor-blockquote")
    case _ => None
  }

  /** `BLOCK_TYPES` of this component: ten entries, no custom-color. */
  const BlockTypes: seq<StyleOption> := [
    StyleOption("H1", "header-one"),
    StyleOption("H2", "header-two"),
    StyleOption("H3", "header-three"),
    StyleOption("H4", "header-four"),
    StyleOption("H5", "header-five"),
    StyleOption("H6", "header-six"),
    StyleOption("Blockquote", "blockquote"),
    StyleOption("UL", "unordered-list-item"),
    StyleOption("OL", "ordered-list-item"),
    StyleOption("Code Block", "code-block")
  ]

  /** The ten block styles are pairwise distinct. */
  lemma BlockStylesDistinct()
    ensures Distinct(Styles(BlockTypes))
  {
    var positions := seq(|BlockTypes|, i requires 0 <= i < |BlockTypes| => BlockStylePosition(BlockTypes[i].style));
    assert positions == [0, 1, 2, 3, 4, 5, 6, 7, 8, 9];
    DistinctByPosition(BlockTypes);
  }


  /** The `active` flags of the block buttons: a button is lit iff its
      style is the start block's type, and at most one is lit. */
  function BlockButtonsActive(s: EditorState): (flags: seq<bool>)
    ensures |flags| == |BlockTypes|
    ensures forall i | 0 <= i < |BlockTypes| :: flags[i] <==> BlockTypes[i].style == s.startBlock.blockType
    ensures CountTrue(flags) <= 1
    ensures CountTrue(flags) == 1 <==> s.startBlock.blockType in Styles(BlockTypes)
  {
    BlockStylesDistinct();
    BlockActiveCount(BlockTypes, s.startBlock.blockType);
    BlockActiveFlags(BlockTypes, s.startBlock.blockType)
  }

  /** The component: the one `editorState` it holds, and the library it
      hands that state to. */
  class RichEditorExample {
    var editorState: EditorState
    const utils: RichUtils

    constructor (initial: EditorState, utils: RichUtils)
      ensures editorState == initial && this.utils == utils
    {
      editorState := initial;
      this.utils := utils;
    }

    /** `handleKeyCommand`: install the library's answer when it is not
        `null` and report "handled"; otherwise report "not-handled" and keep
        the state. */
    method HandleKeyCommand(command: string) returns (r: HandleValue)
      modifies this
      ensures var next := utils.handleKeyCommand(old(editorState), command);
        && (r == Handled <==> next != null)
        && editorState == (if next != null then next else old(editorState))
    {
      var newState := utils.handleKeyCommand(editorState, command);
      if newState != null {
        editorState := newState;
        return Handled;
      }
      return NotHandled;
    }

    /** `mapKeyToEditorCommand`, with the effect `KeyOutcome` describes. */
    method MapKeyToEditorCommand(e: KeyEvent) returns (b: KeyBinding)
      modifies this
      ensures editorState == KeyOutcome(utils, e, old(editorState)).state
      ensures b == KeyOutcome(utils, e, old(editorState)).binding
    {
      if e.keyCode == TabKey {
        var newEditorState := utils.onTab(e, editorState, MaxDepth);
        if newEditorState != editorState {
          editorState := newEditorState;
        }
        return None;
      } else if e.keyCode == SpaceKey {
        var command := SpaceCommand(editorState.startBlock.text);
        if command.Some? {
          return command;
        }
      }
      return utils.getDefaultKeyBinding(e);
    }

    /** The block toolbar's callback. */
    method ToggleBlockType(blockType: string)
      modifies this
      ensures editorState == utils.toggleBlockType(old(editorState), blockType)
    {
      editorState := utils.toggleBlockType(editorState, blockType);
    }

    /** The inline toolbar's callback. */
    method ToggleInlineStyle(inlineStyle: string)
      modifies this
      ensures editorState == utils.toggleInlineStyle(old(editorState), inlineStyle)
    {
      editorState := utils.toggleInlineStyle(editorState, inlineStyle);
    }
  }
}

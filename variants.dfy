/** How the two components differ, stated side by side. */
module Variants {
  import opened Js
  import opened Draft
  import Editor
  import Editor1

  /** Both components leave the same state after Tab (whatever `onTab`
      returned). When `onTab` changes the state, Editor.jsx answers "handled"
      where Editor1.jsx answers `null`; when it does not, Editor.jsx answers
      the default binding, which may itself be `null`. */
  lemma TabAnswers(utils: RichUtils, e: KeyEvent, s: EditorState)
    requires e.keyCode == TabKey
    ensures Editor.KeyOutcome(utils, e, s).state == Editor1.KeyOutcome(utils, e, s).state
    ensures Editor1.KeyOutcome(utils, e, s).binding == None
    ensures utils.onTab(e, s, Editor.MaxDepth) != s ==>
      Editor.KeyOutcome(utils, e, s).binding == Some(Editor.HandledCommand)
    ensures utils.onTab(e, s, Editor.MaxDepth) == s ==>
      Editor.KeyOutcome(utils, e, s).binding == utils.getDefaultKeyBinding(e)
  {
  }

  /** The two components recognise the same Space markers: Editor.jsx acts
      on exactly the texts for which Editor1.jsx names a command, and its
      header-one and BOLD toggles pair with "header" and "bold". */
  lemma SameMarkers(text: string)
    ensures Editor.Classify(SpaceKey, text) != Editor.PassThrough <==> Editor1.SpaceCommand(text).Some?
    ensures Editor.Classify(SpaceKey, text) == Editor.ToggleBlockType("header-one")
        <==> Editor1.SpaceCommand(text) == Some("header")
    ensures Editor.Classify(SpaceKey, text) == Editor.ToggleInlineStyle("BOLD")
        <==> Editor1.SpaceCommand(text) == Some("bold")
  {
    StarSpaceExcludesLongerMarkers(text);
  }

  /** The two `getBlockStyle` functions agree on every block type except
      custom-color, which only Editor.jsx styles. */
  lemma BlockStylesAgreeExceptCustomColor(block: Block)
    ensures Editor.GetBlockStyle(block) == Editor1.GetBlockStyle(block) <==> block.blockType != "custom-color"
  {
  }
}

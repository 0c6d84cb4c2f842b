/** The surface of the draft-js library that the editor components touch.
    The library's own code is not part of this model: its operations are
    carried as uninterpreted function values in a `RichUtils` record. */
module Draft {
  import opened Js

  /** A ContentBlock as the components read it: its type, its text and its
      data map (`block.getData()`), restricted to string values. */
  datatype Block = Block(blockType: string, text: string, data: map<string, string>)

  /** `${block.getData().get(key)}`: a missing key reads as `undefined`,
      which a template literal renders as the text "undefined". */
  function DataText(block: Block, key: string): string
  {
    if key in block.data then block.data[key] else "undefined"
  }

  /** An EditorState. draft-js states are immutable objects, and the
      components compare them with `!==`, i.e. by identity; a class with
      constant fields gives exactly that equality. Only what the components
      read is kept. */
  class EditorState {
    /** `getCurrentContent().getBlockForKey(getSelection().getStartKey())` */
    const startBlock: Block
    /** `getCurrentInlineStyle()` */
    const inlineStyle: set<string>
    /** `getCurrentContent().getBlockMap().first().getType()` */
    const firstBlockType: string
    /** `getCurrentContent().hasText()` */
    const hasText: bool

    constructor (startBlock: Block, inlineStyle: set<string>, firstBlockType: string, hasText: bool)
      ensures this.startBlock == startBlock && this.inlineStyle == inlineStyle
      ensures this.firstBlockType == firstBlockType && this.hasText == hasText
    {
      this.startBlock := startBlock;
      this.inlineStyle := inlineStyle;
      this.firstBlockType := firstBlockType;
      this.hasText := hasText;
    }
  }

  /** A keyboard event: its key code, and the shift flag that travels with
      it into the library. */
  datatype KeyEvent = KeyEvent(keyCode: int, shiftKey: bool)

  const TabKey := 9
  const SpaceKey := 32

  /** What a key binding function returns: a command string, or `null`. */
  type KeyBinding = Option<string>

  /** What a key command handler returns. */
  datatype HandleValue = Handled | NotHandled

  /** The library functions the components call, left uninterpreted: the
      four `RichUtils` functions and `getDefaultKeyBinding`.
      `handleKeyCommand` and `getDefaultKeyBinding` may answer `null`. */
  datatype RichUtils = RichUtils(
    handleKeyCommand: (EditorState, string) -> EditorState?,
    onTab: (KeyEvent, EditorState, int) -> EditorState,
    toggleBlockType: (EditorState, string) -> EditorState,
    toggleInlineStyle: (EditorState, string) -> EditorState,
    getDefaultKeyBinding: KeyEvent -> KeyBinding)

  /** What one call of a key binding function leaves behind: the editor
      state after it and the value it returned. */
  datatype Outcome = Outcome(state: EditorState, binding: KeyBinding)
}

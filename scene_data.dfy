/** The scene records of the bundled film script and the one rule about
    them that decides what is shown: the dialogue block (app/page.tsx). */
module SceneData {

  datatype Option<T> = None | Some(value: T)

  datatype Cinematography = Cinematography(cameraMovement: string, framing: string, lens: string)

  datatype DialogueLine = DialogueLine(character: string, line: string)

  /** One scene of the script. Every text field is display-only; `dialogue`
      may be missing from the record, which is `None` here. */
  datatype Scene = Scene(
    sceneNumber: int,
    title: string,
    duration: string,
    location: string,
    timeOfDay: string,
    description: string,
    cinematography: Cinematography,
    mood: string,
    aiPrompt: string,
    lighting: string,
    colorPalette: seq<string>,
    soundDesign: string,
    dialogue: Option<seq<DialogueLine>>,
    transition: string)

  /** The lines a scene carries, whether or not the field is present. */
  function DialogueLines(scene: Scene): seq<DialogueLine>
  {
    match scene.dialogue
    case None => []
    case Some(lines) => lines
  }

  /** The dialogue block of the single-scene view: `None` when the block is
      not rendered at all, otherwise the lines it lists, in order. */
  function DialogueSection(scene: Scene): (r: Option<seq<DialogueLine>>)
    ensures r.Some? <==> scene.dialogue.Some? && |scene.dialogue.value| > 0
    ensures r.Some? ==> r.value == scene.dialogue.value && |r.value| > 0
  {
    if scene.dialogue.Some? && |scene.dialogue.value| > 0 then scene.dialogue else None
  }

  /** A missing dialogue field and an empty one look the same on the page:
      the block is omitted exactly when the scene has no lines, and when it
      is shown it lists every line of the scene. */
  lemma DialogueShownIffLines(scene: Scene)
    ensures DialogueSection(scene).None? <==> DialogueLines(scene) == []
    ensures DialogueSection(scene).Some? ==> DialogueSection(scene).value == DialogueLines(scene)
  {
  }
}

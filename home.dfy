/** The `Home` component of app/page.tsx as an object: the bundled scenes,
    never written, and the two pieces of state its click handlers update. */
module Page {
  import opened SceneData
  import opened Navigation

  class Home {
    const scenes: seq<Scene>
    var currentScene: int
    var showScript: bool

    /** The invariant every handler keeps: a non-empty store and an index into it. */
    ghost predicate Valid()
      reads this
    {
      |scenes| >= 1 && 0 <= currentScene < |scenes|
    }

    /** The state as a value, for stating the handlers against `Step`. */
    function Snapshot(): State
      reads this
    {
      State(currentScene, showScript)
    }

    /** Mount: the first scene in single-scene view. An empty store has no
        first scene to show, so the page needs at least one. */
    constructor (scenes: seq<Scene>)
      requires |scenes| >= 1
      ensures Valid()
      ensures this.scenes == scenes
      ensures Snapshot() == Initial
    {
      this.scenes := scenes;
      currentScene := 0;
      showScript := false;
    }

    /** The scene the single-scene view displays: a scene of the store, and
        the k-th one when the counter reads "Scene k / N". */
    function CurrentScene(): (r: Scene)
      reads this
      requires Valid()
      ensures r in scenes
      ensures r == scenes[Counter(Snapshot(), |scenes|).0 - 1]
    {
      scenes[currentScene]
    }

    /** The Next button: one scene on, unless already at the last scene. */
    method HandleNext()
      requires Valid()
      modifies this`currentScene
      ensures Valid()
      ensures Snapshot() == Step(old(Snapshot()), Next, |scenes|)
      ensures old(currentScene) < |scenes| - 1 ==> currentScene == old(currentScene) + 1
      ensures old(currentScene) == |scenes| - 1 ==> currentScene == old(currentScene)
    {
      if currentScene < |scenes| - 1 {
        currentScene := currentScene + 1;
      }
    }

    /** The Previous button: one scene back, unless already at the first scene. */
    method HandlePrev()
      requires Valid()
      modifies this`currentScene
      ensures Valid()
      ensures Snapshot() == Step(old(Snapshot()), Prev, |scenes|)
      ensures old(currentScene) > 0 ==> currentScene == old(currentScene) - 1
      ensures old(currentScene) == 0 ==> currentScene == old(currentScene)
    {
      if currentScene > 0 {
        currentScene := currentScene - 1;
      }
    }

    /** A position dot: jump to its scene. There is one dot per scene. */
    method SelectDot(idx: int)
      requires Valid() && 0 <= idx < |scenes|
      modifies this`currentScene
      ensures Valid()
      ensures Snapshot() == Step(old(Snapshot()), Dot(idx), |scenes|)
      ensures currentScene == idx
    {
      currentScene := idx;
    }

    /** The view toggle of the navigation bar: flip the view, keep the scene. */
    method ToggleScript()
      requires Valid()
      modifies this`showScript
      ensures Valid()
      ensures Snapshot() == Step(old(Snapshot()), Toggle, |scenes|)
      ensures showScript == !old(showScript)
    {
      showScript := !showScript;
    }

    /** A scene summary of the full-script view: show that scene, and leave
        the full-script view, in one transition. */
    method SelectScene(idx: int)
      requires Valid() && 0 <= idx < |scenes|
      modifies this
      ensures Valid()
      ensures Snapshot() == Step(old(Snapshot()), Select(idx), |scenes|)
      ensures currentScene == idx && !showScript
    {
      currentScene := idx;
      showScript := false;
    }
  }
}

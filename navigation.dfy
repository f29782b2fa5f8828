/** The presentation state of the `Home` page (app/page.tsx) as a value: the
    index of the scene on show and whether the full script is shown, the
    clicks that change it, and the values the page derives from it. Each
    click is one atomic transition over a store of `n` scenes. */
module Navigation {

  datatype State = State(scene: int, showScript: bool)

  /** The state at mount: first scene, single-scene view. */
  const Initial: State := State(0, false)

  /** The clicks the page handles: the Next and Previous buttons, a position
      dot, the view toggle, and a scene summary of the full-script view. */
  datatype Event = Next | Prev | Dot(idx: int) | Toggle | Select(idx: int)

  predicate InRange(s: State, n: int)
  {
    0 <= s.scene < n
  }

  /** The dots and the summaries exist only for indices of the store. */
  predicate ValidEvent(e: Event, n: int)
  {
    match e
    case Dot(idx) => 0 <= idx < n
    case Select(idx) => 0 <= idx < n
    case _ => true
  }

  predicate ValidEvents(es: seq<Event>, n: int)
  {
    forall i :: 0 <= i < |es| ==> ValidEvent(es[i], n)
  }

  /** The handlers of the page, one transition per click. Clicks the page
      can produce keep the index in range; only the toggle and a summary
      change the view, and the toggle never moves the index. */
  function Step(s: State, e: Event, n: int): (r: State)
    ensures InRange(s, n) && ValidEvent(e, n) ==> InRange(r, n)
    ensures (e.Next? || e.Prev? || e.Dot?) ==> r.showScript == s.showScript
    ensures (e.Next? || e.Prev?) ==> -1 <= r.scene - s.scene <= 1
    ensures e.Toggle? ==> r.scene == s.scene && r.showScript != s.showScript
    ensures e.Select? ==> !r.showScript
  {
    match e
    case Next => if s.scene < n - 1 then s.(scene := s.scene + 1) else s
    case Prev => if s.scene > 0 then s.(scene := s.scene - 1) else s
    case Dot(idx) => s.(scene := idx)
    case Toggle => s.(showScript := !s.showScript)
    case Select(idx) => State(idx, false)
  }

  /** The state after a sequence of clicks. */
  function Run(s: State, es: seq<Event>, n: int): State
    decreases |es|
  {
    if es == [] then s else Run(Step(s, es[0], n), es[1..], n)
  }

  function Repeat(e: Event, k: nat): (r: seq<Event>)
    ensures |r| == k
    ensures forall i :: 0 <= i < k ==> r[i] == e
  {
    if k == 0 then [] else [e] + Repeat(e, k - 1)
  }

  /** Whether the Previous button is disabled: exactly when pressing it
      would do nothing. */
  function PrevDisabled(s: State, n: int): (r: bool)
    requires InRange(s, n)
    ensures r <==> Step(s, Prev, n) == s
    ensures !r ==> Step(s, Prev, n).scene == s.scene - 1
  {
    s.scene == 0
  }

  /** Whether the Next button is disabled: exactly when pressing it would
      do nothing. */
  function NextDisabled(s: State, n: int): (r: bool)
    requires InRange(s, n)
    ensures r <==> Step(s, Next, n) == s
    ensures !r ==> Step(s, Next, n).scene == s.scene + 1
  {
    s.scene == n - 1
  }

  /** The "Scene k / N" counter of the navigation bar, as the pair (k, N). */
  function Counter(s: State, n: int): (r: (int, int))
    requires InRange(s, n)
    ensures 1 <= r.0 <= r.1 && r.1 == n
    ensures r.0 == s.scene + 1
    ensures r.0 == 1 <==> PrevDisabled(s, n)
    ensures r.0 == n <==> NextDisabled(s, n)
  {
    (s.scene + 1, n)
  }

  /** The controls the page renders and leaves enabled in a state: the
      toggle always, Previous, Next and the dots only in single-scene view
      and the buttons only when not disabled, the summaries only in
      full-script view. */
  predicate Available(s: State, e: Event, n: int)
    requires InRange(s, n)
    ensures Available(s, e, n) ==> ValidEvent(e, n)
    ensures Available(s, e, n) && (e.Next? || e.Prev?) ==> Step(s, e, n) != s
  {
    match e
    case Next => !s.showScript && !NextDisabled(s, n)
    case Prev => !s.showScript && !PrevDisabled(s, n)
    case Dot(idx) => !s.showScript && 0 <= idx < n
    case Toggle => true
    case Select(idx) => s.showScript && 0 <= idx < n
  }

  /** A click on an enabled Next or Previous button always moves by exactly
      one scene, and choosing a summary always returns to single-scene view. */
  lemma AvailableClicksTakeEffect(s: State, e: Event, n: int)
    requires InRange(s, n) && Available(s, e, n)
    ensures e.Next? ==> Step(s, e, n) == s.(scene := s.scene + 1)
    ensures e.Prev? ==> Step(s, e, n) == s.(scene := s.scene - 1)
    ensures e.Select? ==> s.showScript && !Step(s, e, n).showScript
  {
  }

  /** Any sequence of clicks keeps `0 <= currentScene < N`. */
  lemma {:induction false} RunInRange(s: State, es: seq<Event>, n: int)
    requires InRange(s, n) && ValidEvents(es, n)
    ensures InRange(Run(s, es, n), n)
    decreases |es|
  {
    if es != [] {
      RunInRange(Step(s, es[0], n), es[1..], n);
    }
  }

  /** Every state reached from mount satisfies the invariant. */
  lemma ReachableInRange(es: seq<Event>, n: int)
    requires n >= 1 && ValidEvents(es, n)
    ensures InRange(Run(Initial, es, n), n)
  {
    RunInRange(Initial, es, n);
  }

  /** The toggle flips the view, twice restores it, and never moves the index. */
  lemma ToggleTwice(s: State, n: int)
    ensures Step(s, Toggle, n).showScript == !s.showScript
    ensures Step(s, Toggle, n).scene == s.scene
    ensures Step(Step(s, Toggle, n), Toggle, n) == s
  {
  }

  /** Pressing Next k times advances k scenes, but stops at the last one:
      there is no wrap-around. */
  lemma {:induction false} NextRepeated(s: State, k: nat, n: int)
    requires InRange(s, n)
    ensures Run(s, Repeat(Next, k), n)
         == s.(scene := if s.scene + k < n - 1 then s.scene + k else n - 1)
    decreases k
  {
    if k > 0 {
      var es := Repeat(Next, k);
      assert es[0] == Next && es[1..] == Repeat(Next, k - 1);
      NextRepeated(Step(s, Next, n), k - 1, n);
    }
  }

  /** Pressing Previous k times goes back k scenes, but stops at the first
      one: there is no wrap-around. */
  lemma {:induction false} PrevRepeated(s: State, k: nat, n: int)
    requires InRange(s, n)
    ensures Run(s, Repeat(Prev, k), n)
         == s.(scene := if s.scene - k > 0 then s.scene - k else 0)
    decreases k
  {
    if k > 0 {
      var es := Repeat(Prev, k);
      assert es[0] == Prev && es[1..] == Repeat(Prev, k - 1);
      PrevRepeated(Step(s, Prev, n), k - 1, n);
    }
  }

  /** With three scenes: Next, Next, Next (inert at the last scene), then
      Previous, ends on the second scene in single-scene view. */
  lemma ThreeSceneWalk()
    ensures Run(Initial, [Next, Next, Next, Prev], 3) == State(1, false)
  {
  }
}

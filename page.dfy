/** The application shell (src/app/page.tsx): which of the four screens is
    up, the API key the later screens use, and the actor picked for a run. */
module Page {
  import opened Json
  import opened Apify

  datatype AppState = Landing | Auth | SelectorState | ExecutorState

  /** What the shell renders: the landing page, the key form, the actor list
      for a key, the run screen for an actor and a key, or nothing. */
  datatype Screen =
    | LandingScreen
    | AuthScreen
    | SelectorScreen(apiKey: string)
    | ExecutorScreen(actor: Actor, apiKey: string)
    | NoScreen

  /** The render guard: the run screen needs both the executor state and a
      selected actor. */
  function Render(state: AppState, apiKey: string, selected: Option<Actor>): (s: Screen)
    ensures s.ExecutorScreen? <==> state == ExecutorState && selected.Some?
    ensures s.ExecutorScreen? ==> s.actor == selected.value && s.apiKey == apiKey
    ensures s == NoScreen <==> state == ExecutorState && selected.None?
    ensures s.SelectorScreen? <==> state == SelectorState
  {
    match state
    case Landing => LandingScreen
    case Auth => AuthScreen
    case SelectorState => SelectorScreen(apiKey)
    case ExecutorState => if selected.Some? then ExecutorScreen(selected.value, apiKey) else NoScreen
  }

  class Home {
    var appState: AppState
    var apiKey: string
    var selectedActor: Option<Actor>

    /** The executor state is only ever entered with an actor in hand. */
    predicate Valid()
      reads this
    {
      appState == ExecutorState ==> selectedActor.Some?
    }

    /** Something is always on screen while the shell is valid. */
    lemma AlwaysRenders()
      requires Valid()
      ensures Render(appState, apiKey, selectedActor) != NoScreen
    {
    }

    constructor ()
      ensures Valid()
      ensures appState == Landing && apiKey == "" && selectedActor.None?
    {
      appState := Landing;
      apiKey := "";
      selectedActor := None;
    }

    method HandleGetStarted()
      requires Valid()
      modifies this`appState
      ensures Valid()
      ensures appState == Auth
      ensures apiKey == old(apiKey) && selectedActor == old(selectedActor)
    {
      appState := Auth;
    }

    method HandleBackToLanding()
      requires Valid()
      modifies this`appState
      ensures Valid()
      ensures appState == Landing
      ensures apiKey == old(apiKey) && selectedActor == old(selectedActor)
    {
      appState := Landing;
    }

    /** A key coming from the key form: kept, any earlier actor dropped, on
        to the actor list. */
    method HandleApiKeySubmit(key: string)
      requires Valid()
      modifies this
      ensures Valid()
      ensures apiKey == key && selectedActor.None? && appState == SelectorState
    {
      apiKey := key;
      selectedActor := None;
      appState := SelectorState;
    }

    method HandleActorSelect(actor: Actor)
      requires Valid()
      modifies this`selectedActor, this`appState
      ensures Valid()
      ensures selectedActor == Some(actor) && appState == ExecutorState
      ensures apiKey == old(apiKey)
    {
      selectedActor := Some(actor);
      appState := ExecutorState;
    }

    /** Leaving the run screen for the list; the key is kept. */
    method HandleBack()
      requires Valid()
      modifies this`selectedActor, this`appState
      ensures Valid()
      ensures selectedActor.None? && appState == SelectorState
      ensures apiKey == old(apiKey)
    {
      selectedActor := None;
      appState := SelectorState;
    }

    /** Changing the key from the actor list: key and actor are both
        forgotten and the key form comes back. */
    method HandleApiKeyChange()
      requires Valid()
      modifies this
      ensures Valid()
      ensures apiKey == "" && selectedActor.None? && appState == Auth
    {
      apiKey := "";
      selectedActor := None;
      appState := Auth;
    }
  }
}

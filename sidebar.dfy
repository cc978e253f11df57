/** The playlist-name input of `src/components/Sidebar.tsx`: the typed name,
    whether the input is shown, and the handlers that create a playlist on
    the application context, react to Enter and Escape, and cancel. The
    handlers' effect on the input is given by the pure steps below. */
module Sidebar {
  import opened Collections
  import opened Text
  import opened AppContext

  /** The input's state: the typed name and whether the input is shown. */
  datatype InputState = InputState(name: string, show: bool)

  /** A handler's result: the new input state and the name of the playlist
      it asks the context to create, if any. */
  datatype Step = Step(state: InputState, created: Option<string>)

  const Closed: InputState := InputState("", false)

  /** `handleCreatePlaylist()`: a name with a non-space character creates a
      playlist with the trimmed name and closes and clears the input; any
      other name does nothing. */
  function CreateStep(st: InputState): Step {
    var trimmed := Trim(st.name);
    if trimmed != [] then Step(Closed, Some(trimmed)) else Step(st, None)
  }

  /** `handleKeyPress(e)`. */
  function KeyStep(st: InputState, key: string): Step {
    if key == "Enter" then CreateStep(st)
    else if key == "Escape" then Step(Closed, None)
    else Step(st, None)
  }

  /** The Cancel button. */
  function CancelStep(st: InputState): Step {
    Step(Closed, None)
  }

  /** A blank name creates nothing and leaves the input as it was; any other
      name creates exactly its trimmed form, which has no surrounding white
      space and is its own trim, and closes and clears the input. */
  lemma CreateStepSpec(st: InputState)
    ensures CreateStep(st).created.None? <==> IsBlank(st.name)
    ensures IsBlank(st.name) ==> CreateStep(st).state == st
    ensures !IsBlank(st.name) ==>
              CreateStep(st).state == Closed
              && CreateStep(st).created == Some(Trim(st.name))
              && !IsBlank(Trim(st.name)) && Trim(Trim(st.name)) == Trim(st.name)
  {
    TrimEmptyIffBlank(st.name);
    TrimIdempotent(st.name);
    TrimEmptyIffBlank(Trim(st.name));
  }

  /** Enter is the Create button; Escape and Cancel close and clear the input
      without creating; other keys change nothing. */
  lemma KeyStepSpec(st: InputState, key: string)
    ensures key == "Enter" ==> KeyStep(st, key) == CreateStep(st)
    ensures key == "Escape" ==> KeyStep(st, key) == CancelStep(st) && KeyStep(st, key).created.None?
    ensures key != "Enter" && key != "Escape" ==> KeyStep(st, key) == Step(st, None)
    ensures CancelStep(st).state == Closed && CancelStep(st).created.None?
  {
  }

  /** The sidebar's state, on the application context. */
  class SidebarPanel {
    var newPlaylistName: string
    var showCreateInput: bool
    const ctx: AppState

    constructor (context: AppState)
      ensures ctx == context && newPlaylistName == "" && !showCreateInput
    {
      ctx := context;
      newPlaylistName := "";
      showCreateInput := false;
    }

    function Input(): InputState
      reads this
    {
      InputState(newPlaylistName, showCreateInput)
    }

    /** Applies a step to the input and asks the context to create the named
        playlist, at time `nowMs`. */
    method Apply(step: Step, nowMs: nat)
      modifies this`newPlaylistName, this`showCreateInput, ctx`playlists
      ensures Input() == step.state
      ensures step.created.None? ==> ctx.playlists == old(ctx.playlists)
      ensures step.created.Some? ==> ctx.playlists == WithPlaylist(old(ctx.playlists), step.created.value, nowMs)
    {
      if step.created.Some? {
        var _ := ctx.CreatePlaylist(step.created.value, nowMs);
      }
      newPlaylistName := step.state.name;
      showCreateInput := step.state.show;
    }

    /** The "Create Playlist" button shows the input. */
    method OpenCreateInput()
      modifies this`showCreateInput
      ensures Input() == old(Input()).(show := true)
    {
      showCreateInput := true;
    }

    /** Typing in the input replaces the name. */
    method SetName(text: string)
      modifies this`newPlaylistName
      ensures Input() == old(Input()).(name := text)
    {
      newPlaylistName := text;
    }

    method HandleCreatePlaylist(nowMs: nat)
      modifies this`newPlaylistName, this`showCreateInput, ctx`playlists
      ensures Input() == CreateStep(old(Input())).state
      ensures IsBlank(old(newPlaylistName)) ==> ctx.playlists == old(ctx.playlists)
      ensures !IsBlank(old(newPlaylistName)) ==>
                ctx.playlists == WithPlaylist(old(ctx.playlists), Trim(old(newPlaylistName)), nowMs)
    {
      CreateStepSpec(Input());
      Apply(CreateStep(Input()), nowMs);
    }

    method HandleKeyPress(key: string, nowMs: nat)
      modifies this`newPlaylistName, this`showCreateInput, ctx`playlists
      ensures Input() == KeyStep(old(Input()), key).state
      ensures key == "Enter" && !IsBlank(old(newPlaylistName)) ==>
                ctx.playlists == WithPlaylist(old(ctx.playlists), Trim(old(newPlaylistName)), nowMs)
      ensures key != "Enter" || IsBlank(old(newPlaylistName)) ==> ctx.playlists == old(ctx.playlists)
    {
      if key == "Enter" {
        HandleCreatePlaylist(nowMs);
      } else if key == "Escape" {
        Cancel();
      }
    }

    method Cancel()
      modifies this`newPlaylistName, this`showCreateInput
      ensures Input() == Closed
    {
      newPlaylistName := "";
      showCreateInput := false;
    }
  }
}

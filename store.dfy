/** The store object itself (`useStore` in src/store/index.ts): one mutable
    instance whose fields every action replaces, each action proved to
    leave exactly the state its `StoreModel` function describes, and to
    keep folder ids and note ids distinct. */
module Store {
  import opened Types
  import FolderTree
  import StoreModel

  class AppStore {
    var folders: seq<Folder>
    var notes: seq<Note>
    var selectedNoteId: Option<string>
    var selectedFolderId: Option<string>
    var config: Config
    var isAIPanelOpen: bool
    var globalAIMessages: seq<AIMessage>
    var isAIPanelExpanded: bool

    /** The value of all fields together. */
    function State(): StoreModel.StoreState
      reads this
    {
      StoreModel.StoreState(folders, notes, selectedNoteId, selectedFolderId, config,
                            isAIPanelOpen, globalAIMessages, isAIPanelExpanded)
    }

    predicate Valid()
      reads this
    {
      StoreModel.Valid(State())
    }

    /** The state before any rehydration: empty collections, nothing
        selected, default config, AI panel open and expanded. */
    constructor ()
      ensures Valid() && State() == StoreModel.InitialState
    {
      folders, notes := [], [];
      selectedNoteId, selectedFolderId := None, None;
      config := StoreModel.DefaultConfig;
      isAIPanelOpen, isAIPanelExpanded := true, true;
      globalAIMessages := [];
    }

    method InitializeData(folderId: string, noteId: string, now: int)
      requires Valid()
      modifies this
      ensures Valid()
      ensures State() == StoreModel.InitializeData(old(State()), folderId, noteId, now)
    {
      if |folders| == 0 && |notes| == 0 {
        folders := [Folder(folderId, StoreModel.DefaultFolderName, None, true, now, now)];
        notes := [Note(noteId, StoreModel.WelcomeTitle, StoreModel.WelcomeContent, folderId, false, [], [], now, now)];
        selectedNoteId := Some(noteId);
        selectedFolderId := Some(folderId);
      }
    }

    /** `id` is the fresh id `uuidv4()` supplies: not used by any folder. */
    method AddFolder(name: string, parentId: Option<string>, id: string, now: int)
      requires Valid()
      requires forall f :: f in folders ==> f.id != id
      modifies this
      ensures Valid()
      ensures State() == StoreModel.AddFolder(old(State()), name, parentId, id, now)
    {
      StoreModel.AddFolderKeepsValid(State(), name, parentId, id, now);
      folders := folders + [Folder(id, name, parentId, true, now, now)];
    }

    method UpdateFolder(id: string, updates: StoreModel.FolderPatch, now: int)
      requires Valid()
      modifies this
      ensures Valid()
      ensures State() == StoreModel.UpdateFolder(old(State()), id, updates, now)
    {
      StoreModel.UpdateFolderKeepsValid(State(), id, updates, now);
      folders := StoreModel.UpdateFolder(State(), id, updates, now).folders;
    }

    /** Collects the closure of `id` first, then removes the folders in it,
        the notes filed in them, and the note selection if it was one of
        those notes. */
    method DeleteFolder(id: string)
      requires Valid()
      modifies this
      ensures Valid()
      ensures State() == StoreModel.DeleteFolder(old(State()), id)
    {
      StoreModel.DeletionsKeepValid(State(), id);
      var doomed := FolderTree.CollectFolderIds(folders, id);
      var gone := StoreModel.NotesIn(notes, doomed);
      selectedNoteId := StoreModel.SelectionAfter(selectedNoteId, gone);
      folders := StoreModel.FoldersOutside(folders, doomed);
      notes := StoreModel.NotesWithout(notes, gone);
    }

    method ToggleFolderExpanded(id: string)
      requires Valid()
      modifies this
      ensures Valid()
      ensures State() == StoreModel.ToggleFolderExpanded(old(State()), id)
    {
      StoreModel.ToggleFolderExpandedKeepsValid(State(), id);
      folders := StoreModel.ToggleFolderExpanded(State(), id).folders;
    }

    /** `id` is the fresh id `uuidv4()` supplies: not used by any note. */
    method AddNote(folderId: string, title: Option<string>, id: string, now: int)
      requires Valid()
      requires forall n :: n in notes ==> n.id != id
      modifies this
      ensures Valid()
      ensures State() == StoreModel.AddNote(old(State()), folderId, title, id, now)
    {
      StoreModel.AddNoteKeepsValid(State(), folderId, title, id, now);
      var t := if title.Some? then title.value else StoreModel.DefaultNoteTitle;
      notes := notes + [Note(id, t, "", folderId, false, [], [], now, now)];
      selectedNoteId := Some(id);
    }

    method UpdateNote(id: string, updates: StoreModel.NotePatch, now: int)
      requires Valid()
      modifies this
      ensures Valid()
      ensures State() == StoreModel.UpdateNote(old(State()), id, updates, now)
    {
      StoreModel.UpdateNoteKeepsValid(State(), id, updates, now);
      notes := StoreModel.UpdateNote(State(), id, updates, now).notes;
    }

    method DeleteNote(id: string)
      requires Valid()
      modifies this
      ensures Valid()
      ensures State() == StoreModel.DeleteNote(old(State()), id)
    {
      StoreModel.DeletionsKeepValid(State(), id);
      notes := StoreModel.NotesWithout(notes, {id});
      if selectedNoteId == Some(id) {
        selectedNoteId := None;
      }
    }

    method SelectNote(id: Option<string>)
      requires Valid()
      modifies this
      ensures Valid()
      ensures State() == StoreModel.SelectNote(old(State()), id)
    {
      selectedNoteId := id;
    }

    method ToggleFavorite(id: string)
      requires Valid()
      modifies this
      ensures Valid()
      ensures State() == StoreModel.ToggleFavorite(old(State()), id)
    {
      StoreModel.ToggleFavoriteKeepsValid(State(), id);
      notes := StoreModel.ToggleFavorite(State(), id).notes;
    }

    method MoveNote(noteId: string, targetFolderId: string, now: int)
      requires Valid()
      modifies this
      ensures Valid()
      ensures State() == StoreModel.MoveNote(old(State()), noteId, targetFolderId, now)
    {
      StoreModel.MoveNoteKeepsValid(State(), noteId, targetFolderId, now);
      notes := StoreModel.MoveNote(State(), noteId, targetFolderId, now).notes;
    }

    method UpdateConfig(updates: StoreModel.ConfigPatch)
      requires Valid()
      modifies this
      ensures Valid()
      ensures State() == StoreModel.UpdateConfig(old(State()), updates)
    {
      config := StoreModel.UpdateConfig(State(), updates).config;
    }

    method AddAIMessage(noteId: string, role: Role, content: string, msgId: string, now: int)
      requires Valid()
      modifies this
      ensures Valid()
      ensures State() == StoreModel.AddAIMessage(old(State()), noteId, role, content, msgId, now)
    {
      StoreModel.AddAIMessageKeepsValid(State(), noteId, role, content, msgId, now);
      notes := StoreModel.AddAIMessage(State(), noteId, role, content, msgId, now).notes;
    }

    method ClearAIMessages(noteId: string, now: int)
      requires Valid()
      modifies this
      ensures Valid()
      ensures State() == StoreModel.ClearAIMessages(old(State()), noteId, now)
    {
      StoreModel.ClearAIMessagesKeepsValid(State(), noteId, now);
      notes := StoreModel.ClearAIMessages(State(), noteId, now).notes;
    }

    method AddGlobalAIMessage(role: Role, content: string, msgId: string, now: int)
      requires Valid()
      modifies this
      ensures Valid()
      ensures State() == StoreModel.AddGlobalAIMessage(old(State()), role, content, msgId, now)
    {
      globalAIMessages := globalAIMessages + [AIMessage(msgId, role, content, now)];
    }

    method ClearGlobalAIMessages()
      requires Valid()
      modifies this
      ensures Valid()
      ensures State() == StoreModel.ClearGlobalAIMessages(old(State()))
    {
      globalAIMessages := [];
    }

    method ToggleAIPanel()
      requires Valid()
      modifies this
      ensures Valid()
      ensures State() == StoreModel.ToggleAIPanel(old(State()))
    {
      isAIPanelOpen := !isAIPanelOpen;
    }

    method SetAIPanelExpanded(expanded: bool)
      requires Valid()
      modifies this
      ensures Valid()
      ensures State() == StoreModel.SetAIPanelExpanded(old(State()), expanded)
    {
      isAIPanelExpanded := expanded;
    }
  }
}

/** The state of the note store and what each of its actions does to it
    (src/store/index.ts), as functions from the old state to the new one.
    Clock readings (`Date.now()`) and fresh ids (`uuidv4()`) are parameters. */
module StoreModel {
  import opened Types
  import opened Seqs
  import FolderTree

  /** Everything the store holds, data and UI flags alike. */
  datatype StoreState = StoreState(
    folders: seq<Folder>,
    notes: seq<Note>,
    selectedNoteId: Option<string>,
    selectedFolderId: Option<string>,
    config: Config,
    isAIPanelOpen: bool,
    globalAIMessages: seq<AIMessage>,
    isAIPanelExpanded: bool)

  /** The durable subset `partialize` hands to local storage. */
  datatype Persisted = Persisted(
    folders: seq<Folder>,
    notes: seq<Note>,
    config: Config,
    globalAIMessages: seq<AIMessage>)

  const DefaultConfig := Config(Light, 15, 3000, MiniMax, "")

  const InitialState := StoreState([], [], None, None, DefaultConfig, true, [], true)

  const DefaultFolderName := "我的笔记"

  const DefaultNoteTitle := "新建笔记"

  const WelcomeTitle := "欢迎使用 NoteMaster"

  const WelcomeContent :=
    "# 欢迎使用 NoteMaster\n"
    + "\n"
    + "这是一款功能强大的笔记应用，支持 Markdown 语法编写。\n"
    + "\n"
    + "## 主要功能\n"
    + "\n"
    + "- **Markdown 编辑**：完整的 Markdown 支持\n"
    + "- **文件夹管理**：多层级文件夹整理\n"
    + "- **AI 助手**：智能辅助写作（每个笔记独立的AI记忆）\n"
    + "- **本地存储**：数据安全存储在本地\n"
    + "\n"
    + "## 快捷键\n"
    + "\n"
    + "- `Ctrl+S`：保存\n"
    + "- `Ctrl+B`：粗体\n"
    + "- `Ctrl+I`：斜体\n"
    + "- `Ctrl+K`：插入链接\n"
    + "\n"
    + "开始您的笔记之旅吧！"

  function FolderKey(f: Folder): string { f.id }

  function NoteKey(n: Note): string { n.id }

  /** Folder ids are pairwise distinct, and so are note ids. */
  predicate Valid(s: StoreState)
  {
    DistinctBy(s.folders, FolderKey) && DistinctBy(s.notes, NoteKey)
  }

  /** `a ?? b` for the fields of a partial update: a field the update
      leaves out keeps its old value. */
  function Patched<T>(update: Option<T>, old_: T): T
  {
    match update
    case Some(v) => v
    case None => old_
  }

  // ---------------------------------------------------------------- init

  function InitializeData(s: StoreState, folderId: string, noteId: string, now: int): StoreState
  {
    if |s.folders| == 0 && |s.notes| == 0 then
      s.(folders := [Folder(folderId, DefaultFolderName, None, true, now, now)],
         notes := [Note(noteId, WelcomeTitle, WelcomeContent, folderId, false, [], [], now, now)],
         selectedNoteId := Some(noteId),
         selectedFolderId := Some(folderId))
    else
      s
  }

  // ------------------------------------------------------------- folders

  function AddFolder(s: StoreState, name: string, parentId: Option<string>, id: string, now: int): StoreState
  {
    s.(folders := s.folders + [Folder(id, name, parentId, true, now, now)])
  }

  /** The fields of `Partial<Folder>` the model lets an update carry;
      `id` and `parentId` are left out (see README). */
  datatype FolderPatch = FolderPatch(name: Option<string>, isExpanded: Option<bool>, createdAt: Option<int>)

  function PatchFolder(f: Folder, p: FolderPatch, now: int): Folder
  {
    f.(name := Patched(p.name, f.name),
       isExpanded := Patched(p.isExpanded, f.isExpanded),
       createdAt := Patched(p.createdAt, f.createdAt),
       updatedAt := now)
  }

  function UpdateFolder(s: StoreState, id: string, p: FolderPatch, now: int): StoreState
  {
    s.(folders := MapIf(s.folders, (f: Folder) => f.id == id, (f: Folder) => PatchFolder(f, p, now)))
  }

  /** Ids of the notes filed in one of the folders `doomed`. */
  function NotesIn(notes: seq<Note>, doomed: set<string>): set<string>
  {
    set n | n in notes && n.folderId in doomed :: n.id
  }

  function FoldersOutside(folders: seq<Folder>, ids: set<string>): seq<Folder>
  {
    Filter(folders, (f: Folder) => f.id !in ids)
  }

  function NotesWithout(notes: seq<Note>, ids: set<string>): seq<Note>
  {
    Filter(notes, (n: Note) => n.id !in ids)
  }

  /** What the two removals inherit from `filter`. */
  lemma FoldersOutsideFacts(folders: seq<Folder>, more: seq<Folder>, ids: set<string>)
    ensures Subsequence(FoldersOutside(folders, ids), folders)
    ensures DistinctBy(folders, FolderKey) ==> DistinctBy(FoldersOutside(folders, ids), FolderKey)
    ensures FoldersOutside(folders + more, ids) == FoldersOutside(folders, ids) + FoldersOutside(more, ids)
    ensures (forall f :: f in folders ==> f.id !in ids) ==> FoldersOutside(folders, ids) == folders
    ensures (forall f :: f in folders ==> f.id in ids) ==> FoldersOutside(folders, ids) == []
  {
    var keep := (f: Folder) => f.id !in ids;
    FilterIsSubsequence(folders, keep);
    if DistinctBy(folders, FolderKey) {
      FilterKeepsDistinct(folders, keep, FolderKey);
    }
    FilterAppend(folders, more, keep);
    if forall f :: f in folders ==> f.id !in ids {
      FilterAll(folders, keep);
    }
    if forall f :: f in folders ==> f.id in ids {
      FilterNone(folders, keep);
    }
  }

  lemma NotesWithoutFacts(notes: seq<Note>, more: seq<Note>, ids: set<string>)
    ensures Subsequence(NotesWithout(notes, ids), notes)
    ensures DistinctBy(notes, NoteKey) ==> DistinctBy(NotesWithout(notes, ids), NoteKey)
    ensures NotesWithout(notes + more, ids) == NotesWithout(notes, ids) + NotesWithout(more, ids)
    ensures (forall n :: n in notes ==> n.id !in ids) ==> NotesWithout(notes, ids) == notes
    ensures (forall n :: n in notes ==> n.id in ids) ==> NotesWithout(notes, ids) == []
  {
    var keep := (n: Note) => n.id !in ids;
    FilterIsSubsequence(notes, keep);
    if DistinctBy(notes, NoteKey) {
      FilterKeepsDistinct(notes, keep, NoteKey);
    }
    FilterAppend(notes, more, keep);
    if forall n :: n in notes ==> n.id !in ids {
      FilterAll(notes, keep);
    }
    if forall n :: n in notes ==> n.id in ids {
      FilterNone(notes, keep);
    }
  }

  /** `selectedNoteId && gone.includes(selectedNoteId) ? null : selectedNoteId`. */
  function SelectionAfter(sel: Option<string>, gone: set<string>): Option<string>
  {
    if Truthy(sel) && sel.value in gone then None else sel
  }

  /** Removes the folder `id`, every folder below it, and every note filed
      in one of them, all computed from the one old state. */
  function DeleteFolder(s: StoreState, id: string): StoreState
  {
    var doomed := FolderTree.Descendants(s.folders, id);
    var gone := NotesIn(s.notes, doomed);
    s.(folders := FoldersOutside(s.folders, doomed),
       notes := NotesWithout(s.notes, gone),
       selectedNoteId := SelectionAfter(s.selectedNoteId, gone))
  }

  function ToggleFolderExpanded(s: StoreState, id: string): StoreState
  {
    s.(folders := MapIf(s.folders, (f: Folder) => f.id == id, (f: Folder) => f.(isExpanded := !f.isExpanded)))
  }

  // --------------------------------------------------------------- notes

  /** `title` is `None` when the caller leaves the parameter out. */
  function AddNote(s: StoreState, folderId: string, title: Option<string>, id: string, now: int): StoreState
  {
    s.(notes := s.notes + [Note(id, Patched(title, DefaultNoteTitle), "", folderId, false, [], [], now, now)],
       selectedNoteId := Some(id))
  }

  /** The fields of `Partial<Note>` the model lets an update carry; `id`
      is left out (see README); `updatedAt` is always overwritten. */
  datatype NotePatch = NotePatch(
    title: Option<string>,
    content: Option<string>,
    folderId: Option<string>,
    isFavorite: Option<bool>,
    tags: Option<seq<string>>,
    aiMessages: Option<seq<AIMessage>>,
    createdAt: Option<int>)

  function PatchNote(n: Note, p: NotePatch, now: int): Note
  {
    n.(title := Patched(p.title, n.title),
       content := Patched(p.content, n.content),
       folderId := Patched(p.folderId, n.folderId),
       isFavorite := Patched(p.isFavorite, n.isFavorite),
       tags := Patched(p.tags, n.tags),
       aiMessages := Patched(p.aiMessages, n.aiMessages),
       createdAt := Patched(p.createdAt, n.createdAt),
       updatedAt := now)
  }

  function UpdateNote(s: StoreState, id: string, p: NotePatch, now: int): StoreState
  {
    s.(notes := MapIf(s.notes, (n: Note) => n.id == id, (n: Note) => PatchNote(n, p, now)))
  }

  function DeleteNote(s: StoreState, id: string): StoreState
  {
    s.(notes := NotesWithout(s.notes, {id}),
       selectedNoteId := if s.selectedNoteId == Some(id) then None else s.selectedNoteId)
  }

  /** Sets the selection without checking that the id exists. */
  function SelectNote(s: StoreState, id: Option<string>): StoreState
  {
    s.(selectedNoteId := id)
  }

  function ToggleFavorite(s: StoreState, id: string): StoreState
  {
    s.(notes := MapIf(s.notes, (n: Note) => n.id == id, (n: Note) => n.(isFavorite := !n.isFavorite)))
  }

  /** Refiles a note without checking that the target folder exists. */
  function MoveNote(s: StoreState, noteId: string, targetFolderId: string, now: int): StoreState
  {
    s.(notes := MapIf(s.notes, (n: Note) => n.id == noteId,
                      (n: Note) => n.(folderId := targetFolderId, updatedAt := now)))
  }

  // -------------------------------------------------------------- config

  datatype ConfigPatch = ConfigPatch(
    theme: Option<Theme>,
    fontSize: Option<int>,
    autoSaveInterval: Option<int>,
    aiProvider: Option<Provider>,
    aiApiKey: Option<string>)

  /** `{ ...config, ...updates }`, without any validation. */
  function UpdateConfig(s: StoreState, p: ConfigPatch): StoreState
  {
    s.(config := Config(
      Patched(p.theme, s.config.theme),
      Patched(p.fontSize, s.config.fontSize),
      Patched(p.autoSaveInterval, s.config.autoSaveInterval),
      Patched(p.aiProvider, s.config.aiProvider),
      Patched(p.aiApiKey, s.config.aiApiKey)))
  }

  // ---------------------------------------------------------- AI threads

  /** Appends to the thread of every note whose id is `noteId`; the
      message gets the fresh id `msgId` and the time stamp `now`. */
  function AddAIMessage(s: StoreState, noteId: string, role: Role, content: string, msgId: string, now: int): StoreState
  {
    s.(notes := MapIf(s.notes, (n: Note) => n.id == noteId,
                      (n: Note) => n.(aiMessages := n.aiMessages + [AIMessage(msgId, role, content, now)], updatedAt := now)))
  }

  /** As written in the source: `aiMessages: n.aiMessages || []` keeps the
      thread, so only `updatedAt` changes. */
  function ClearAIMessages(s: StoreState, noteId: string, now: int): StoreState
  {
    s.(notes := MapIf(s.notes, (n: Note) => n.id == noteId,
                      (n: Note) => n.(aiMessages := n.aiMessages, updatedAt := now)))
  }

  function AddGlobalAIMessage(s: StoreState, role: Role, content: string, msgId: string, now: int): StoreState
  {
    s.(globalAIMessages := s.globalAIMessages + [AIMessage(msgId, role, content, now)])
  }

  function ClearGlobalAIMessages(s: StoreState): StoreState
  {
    s.(globalAIMessages := [])
  }

  // ------------------------------------------------------------ UI flags

  function ToggleAIPanel(s: StoreState): StoreState
  {
    s.(isAIPanelOpen := !s.isAIPanelOpen)
  }

  function SetAIPanelExpanded(s: StoreState, expanded: bool): StoreState
  {
    s.(isAIPanelExpanded := expanded)
  }

  // ---------------------------------------------------------- persistence

  function Partialize(s: StoreState): Persisted
  {
    Persisted(s.folders, s.notes, s.config, s.globalAIMessages)
  }

  // ===================================================================
  // Properties
  // ===================================================================

  /** On an empty store: one root folder `我的笔记`, one welcome note filed
      in it, both selected; nothing else changes. */
  lemma InitializeDataPopulatesEmpty(s: StoreState, folderId: string, noteId: string, now: int)
    requires |s.folders| == 0 && |s.notes| == 0
    ensures var r := InitializeData(s, folderId, noteId, now);
      && |r.folders| == 1 && |r.notes| == 1
      && r.folders[0].id == folderId && r.folders[0].name == DefaultFolderName
      && r.folders[0].parentId == None && r.folders[0].isExpanded
      && r.notes[0].id == noteId && r.notes[0].folderId == folderId
      && r.notes[0].title == WelcomeTitle && r.notes[0].content == WelcomeContent
      && !r.notes[0].isFavorite && r.notes[0].tags == [] && r.notes[0].aiMessages == []
      && r.selectedNoteId == Some(noteId) && r.selectedFolderId == Some(folderId)
      && r.config == s.config && r.globalAIMessages == s.globalAIMessages
      && r.isAIPanelOpen == s.isAIPanelOpen && r.isAIPanelExpanded == s.isAIPanelExpanded
  {
  }

  lemma InitializeDataNoopUnlessEmpty(s: StoreState, folderId: string, noteId: string, now: int)
    requires |s.folders| > 0 || |s.notes| > 0
    ensures InitializeData(s, folderId, noteId, now) == s
  {
  }

  /** A second call, with any fresh ids and any clock, changes nothing. */
  lemma InitializeDataIdempotent(s: StoreState, f1: string, n1: string, t1: int, f2: string, n2: string, t2: int)
    ensures var r := InitializeData(s, f1, n1, t1);
      InitializeData(r, f2, n2, t2) == r
  {
  }

  /** One new expanded folder at the end, parent as given (root by
      default) and not checked; existing folders and all else unchanged. */
  lemma AddFolderAppends(s: StoreState, name: string, parentId: Option<string>, id: string, now: int)
    ensures var r := AddFolder(s, name, parentId, id, now);
      && |r.folders| == |s.folders| + 1
      && r.folders[..|s.folders|] == s.folders
      && r.folders[|s.folders|] == Folder(id, name, parentId, true, now, now)
      && r.(folders := s.folders) == s
  {
  }

  /** Deleting a folder just added with a fresh id undoes the addition. */
  lemma AddFolderThenDelete(s: StoreState, name: string, parentId: Option<string>, id: string, now: int)
    requires forall f :: f in s.folders ==> f.id != id && f.parentId != Some(id)
    requires forall n :: n in s.notes ==> n.folderId != id
    ensures DeleteFolder(AddFolder(s, name, parentId, id, now), id) == s
  {
    var a := AddFolder(s, name, parentId, id, now);
    var added := Folder(id, name, parentId, true, now, now);
    assert FolderTree.Descendants(a.folders, id) == {id} by {
      FolderTree.DescendantsLeast(a.folders, id, {id});
    }
    assert FoldersOutside(a.folders, {id}) == s.folders by {
      FoldersOutsideFacts(s.folders, [added], {id});
      FoldersOutsideFacts([added], [], {id});
    }
    assert NotesIn(s.notes, {id}) == {};
    assert NotesWithout(s.notes, {}) == s.notes by {
      NotesWithoutFacts(s.notes, [], {});
    }
  }

  /** The matching folder takes the fields the update carries and a new
      `updatedAt`, keeping its id and parent; every other folder and the
      rest of the store are unchanged. */
  lemma UpdateFolderMerges(s: StoreState, id: string, p: FolderPatch, now: int)
    ensures var r := UpdateFolder(s, id, p, now);
      && |r.folders| == |s.folders|
      && (forall i :: 0 <= i < |s.folders| && s.folders[i].id != id ==> r.folders[i] == s.folders[i])
      && (forall i :: 0 <= i < |s.folders| && s.folders[i].id == id ==>
            var f, g := s.folders[i], r.folders[i];
            && g.id == f.id && g.parentId == f.parentId && g.updatedAt == now
            && g.name == (if p.name.Some? then p.name.value else f.name)
            && g.isExpanded == (if p.isExpanded.Some? then p.isExpanded.value else f.isExpanded)
            && g.createdAt == (if p.createdAt.Some? then p.createdAt.value else f.createdAt))
      && r.(folders := s.folders) == s
  {
  }

  lemma UpdateFolderMissingIsNoop(s: StoreState, id: string, p: FolderPatch, now: int)
    requires forall f :: f in s.folders ==> f.id != id
    ensures UpdateFolder(s, id, p, now) == s
  {
    var r := UpdateFolder(s, id, p, now);
    assert r.folders == s.folders;
  }

  /** After `deleteFolder(id)`: the surviving folders are exactly those
      outside the closure of `id`, in their old order and unchanged; no
      survivor has its parent in the closure; the folder selection, the
      config, the global thread and the UI flags are untouched. */
  lemma DeleteFolderRemovesClosure(s: StoreState, id: string)
    ensures var closure, r := FolderTree.Descendants(s.folders, id), DeleteFolder(s, id);
      && id in closure
      && (forall f :: f in r.folders <==> f in s.folders && f.id !in closure)
      && (forall f :: f in r.folders && f.parentId.Some? ==> f.parentId.value !in closure)
      && Subsequence(r.folders, s.folders)
      && r.selectedFolderId == s.selectedFolderId && r.config == s.config
      && r.globalAIMessages == s.globalAIMessages
      && r.isAIPanelOpen == s.isAIPanelOpen && r.isAIPanelExpanded == s.isAIPanelExpanded
  {
    FoldersOutsideFacts(s.folders, [], FolderTree.Descendants(s.folders, id));
  }

  lemma DistinctNoteIds(notes: seq<Note>, n: Note, m: Note)
    requires DistinctBy(notes, NoteKey)
    requires n in notes && m in notes && n.id == m.id
    ensures n == m
  {
    var i :| 0 <= i < |notes| && notes[i] == n;
    var j :| 0 <= j < |notes| && notes[j] == m;
    assert NoteKey(notes[i]) == NoteKey(notes[j]);
  }

  /** After `deleteFolder(id)` no surviving note is filed in the closure,
      the survivors keep their old order and contents, and, when note ids
      are distinct, every note filed outside the closure survives. */
  lemma DeleteFolderRemovesNotes(s: StoreState, id: string)
    ensures var closure, r := FolderTree.Descendants(s.folders, id), DeleteFolder(s, id);
      && (forall n :: n in r.notes ==> n in s.notes && n.folderId !in closure)
      && (Valid(s) ==> forall n :: n in r.notes <==> n in s.notes && n.folderId !in closure)
      && Subsequence(r.notes, s.notes)
  {
    var closure := FolderTree.Descendants(s.folders, id);
    var gone := NotesIn(s.notes, closure);
    NotesWithoutFacts(s.notes, [], gone);
    forall n | n in s.notes && n.folderId in closure ensures n.id in gone {
    }
    if Valid(s) {
      forall n | n in s.notes && n.folderId !in closure ensures n.id !in gone {
        if n.id in gone {
          var m :| m in s.notes && m.folderId in closure && m.id == n.id;
          DistinctNoteIds(s.notes, n, m);
        }
      }
    }
  }

  /** `deleteFolder` clears the note selection exactly when the selected
      note (a non-empty id) was filed in the deleted closure, and otherwise
      leaves it as it was. */
  lemma DeleteFolderSelection(s: StoreState, id: string)
    ensures var closure, r := FolderTree.Descendants(s.folders, id), DeleteFolder(s, id);
      && (r.selectedNoteId == None <==>
            s.selectedNoteId == None
            || (Truthy(s.selectedNoteId)
                && exists n :: n in s.notes && n.id == s.selectedNoteId.value && n.folderId in closure))
      && (r.selectedNoteId != None ==> r.selectedNoteId == s.selectedNoteId)
  {
  }

  /** Flips the one flag, leaving `updatedAt` and everything else alone. */
  lemma ToggleFolderExpandedFlips(s: StoreState, id: string)
    ensures var r := ToggleFolderExpanded(s, id);
      && |r.folders| == |s.folders|
      && (forall i :: 0 <= i < |s.folders| ==>
            r.folders[i] == if s.folders[i].id == id then s.folders[i].(isExpanded := !s.folders[i].isExpanded)
                            else s.folders[i])
      && r.(folders := s.folders) == s
  {
  }

  lemma ToggleFolderExpandedTwice(s: StoreState, id: string)
    ensures ToggleFolderExpanded(ToggleFolderExpanded(s, id), id) == s
  {
    var r := ToggleFolderExpanded(ToggleFolderExpanded(s, id), id);
    assert r.folders == s.folders;
  }

  /** A new empty note at the end of the list, selected; default title
      `新建笔记`; folder not checked; existing notes unchanged. */
  lemma AddNoteAppendsAndSelects(s: StoreState, folderId: string, title: Option<string>, id: string, now: int)
    ensures var r := AddNote(s, folderId, title, id, now);
      && |r.notes| == |s.notes| + 1
      && r.notes[..|s.notes|] == s.notes
      && r.notes[|s.notes|].id == id && r.notes[|s.notes|].folderId == folderId
      && r.notes[|s.notes|].title == (if title.Some? then title.value else DefaultNoteTitle)
      && r.notes[|s.notes|].content == "" && !r.notes[|s.notes|].isFavorite
      && r.notes[|s.notes|].tags == [] && r.notes[|s.notes|].aiMessages == []
      && r.notes[|s.notes|].createdAt == now && r.notes[|s.notes|].updatedAt == now
      && r.selectedNoteId == Some(id)
      && r.(notes := s.notes, selectedNoteId := s.selectedNoteId) == s
  {
  }

  /** Deleting a note just added with a fresh id restores the notes and
      leaves nothing selected. */
  lemma AddNoteThenDelete(s: StoreState, folderId: string, title: Option<string>, id: string, now: int)
    requires forall n :: n in s.notes ==> n.id != id
    ensures DeleteNote(AddNote(s, folderId, title, id, now), id) == s.(selectedNoteId := None)
  {
    var a := AddNote(s, folderId, title, id, now);
    assert a.notes == s.notes + [a.notes[|s.notes|]];
    NotesWithoutFacts(s.notes, [a.notes[|s.notes|]], {id});
    NotesWithoutFacts([a.notes[|s.notes|]], [], {id});
  }

  /** The matching note takes the fields the update carries and a new
      `updatedAt`, keeping its id; other notes and state are unchanged. */
  lemma UpdateNoteMerges(s: StoreState, id: string, p: NotePatch, now: int)
    ensures var r := UpdateNote(s, id, p, now);
      && |r.notes| == |s.notes|
      && (forall i :: 0 <= i < |s.notes| && s.notes[i].id != id ==> r.notes[i] == s.notes[i])
      && (forall i :: 0 <= i < |s.notes| && s.notes[i].id == id ==>
            var n, m := s.notes[i], r.notes[i];
            && m.id == n.id && m.updatedAt == now
            && m.title == (if p.title.Some? then p.title.value else n.title)
            && m.content == (if p.content.Some? then p.content.value else n.content)
            && m.folderId == (if p.folderId.Some? then p.folderId.value else n.folderId)
            && m.isFavorite == (if p.isFavorite.Some? then p.isFavorite.value else n.isFavorite)
            && m.tags == (if p.tags.Some? then p.tags.value else n.tags)
            && m.aiMessages == (if p.aiMessages.Some? then p.aiMessages.value else n.aiMessages)
            && m.createdAt == (if p.createdAt.Some? then p.createdAt.value else n.createdAt))
      && r.(notes := s.notes) == s
  {
  }

  lemma UpdateNoteMissingIsNoop(s: StoreState, id: string, p: NotePatch, now: int)
    requires forall n :: n in s.notes ==> n.id != id
    ensures UpdateNote(s, id, p, now) == s
  {
    var r := UpdateNote(s, id, p, now);
    assert r.notes == s.notes;
  }

  /** The survivors are exactly the notes with another id, in order; the
      selection is cleared exactly when it was this note; folders and the
      folder selection are untouched. */
  lemma DeleteNoteRemoves(s: StoreState, id: string)
    ensures var r := DeleteNote(s, id);
      && (forall n :: n in r.notes <==> n in s.notes && n.id != id)
      && Subsequence(r.notes, s.notes)
      && (r.selectedNoteId == None <==> s.selectedNoteId == None || s.selectedNoteId == Some(id))
      && (r.selectedNoteId != None ==> r.selectedNoteId == s.selectedNoteId)
      && r.folders == s.folders && r.selectedFolderId == s.selectedFolderId
      && r.(notes := s.notes, selectedNoteId := s.selectedNoteId) == s
  {
    NotesWithoutFacts(s.notes, [], {id});
  }

  lemma ToggleFavoriteFlips(s: StoreState, id: string)
    ensures var r := ToggleFavorite(s, id);
      && |r.notes| == |s.notes|
      && (forall i :: 0 <= i < |s.notes| ==>
            r.notes[i] == if s.notes[i].id == id then s.notes[i].(isFavorite := !s.notes[i].isFavorite)
                          else s.notes[i])
      && r.(notes := s.notes) == s
  {
  }

  lemma ToggleFavoriteTwice(s: StoreState, id: string)
    ensures ToggleFavorite(ToggleFavorite(s, id), id) == s
  {
    var r := ToggleFavorite(ToggleFavorite(s, id), id);
    assert r.notes == s.notes;
  }

  lemma MoveNoteRefiles(s: StoreState, noteId: string, targetFolderId: string, now: int)
    ensures var r := MoveNote(s, noteId, targetFolderId, now);
      && |r.notes| == |s.notes|
      && (forall i :: 0 <= i < |s.notes| ==>
            r.notes[i] == if s.notes[i].id == noteId then s.notes[i].(folderId := targetFolderId, updatedAt := now)
                          else s.notes[i])
      && r.(notes := s.notes) == s
  {
  }

  lemma MoveNoteMissingIsNoop(s: StoreState, noteId: string, targetFolderId: string, now: int)
    requires forall n :: n in s.notes ==> n.id != noteId
    ensures MoveNote(s, noteId, targetFolderId, now) == s
  {
    var r := MoveNote(s, noteId, targetFolderId, now);
    assert r.notes == s.notes;
  }

  /** Each config field takes the update's value when present; an empty
      update changes nothing; nothing but the config changes. */
  lemma UpdateConfigMerges(s: StoreState, p: ConfigPatch)
    ensures var c := UpdateConfig(s, p).config;
      && c.theme == (if p.theme.Some? then p.theme.value else s.config.theme)
      && c.fontSize == (if p.fontSize.Some? then p.fontSize.value else s.config.fontSize)
      && c.autoSaveInterval == (if p.autoSaveInterval.Some? then p.autoSaveInterval.value else s.config.autoSaveInterval)
      && c.aiProvider == (if p.aiProvider.Some? then p.aiProvider.value else s.config.aiProvider)
      && c.aiApiKey == (if p.aiApiKey.Some? then p.aiApiKey.value else s.config.aiApiKey)
    ensures UpdateConfig(s, p).(config := s.config) == s
    ensures UpdateConfig(s, ConfigPatch(None, None, None, None, None)) == s
  {
  }

  /** Thread isolation: the message lands at the end of the matching
      note's thread only, with that note's `updatedAt` refreshed; other
      notes, the global thread and the rest of the store are unchanged. */
  lemma AddAIMessageIsolated(s: StoreState, noteId: string, role: Role, content: string, msgId: string, now: int)
    ensures var r := AddAIMessage(s, noteId, role, content, msgId, now);
      && |r.notes| == |s.notes|
      && (forall i :: 0 <= i < |s.notes| && s.notes[i].id != noteId ==> r.notes[i] == s.notes[i])
      && (forall i :: 0 <= i < |s.notes| && s.notes[i].id == noteId ==>
            && r.notes[i].aiMessages == s.notes[i].aiMessages + [AIMessage(msgId, role, content, now)]
            && r.notes[i].(aiMessages := s.notes[i].aiMessages, updatedAt := s.notes[i].updatedAt) == s.notes[i]
            && r.notes[i].updatedAt == now)
      && r.(notes := s.notes) == s
  {
  }

  /** As written, clearing a note's thread keeps every message and only
      refreshes the note's `updatedAt`. */
  lemma ClearAIMessagesKeepsThread(s: StoreState, noteId: string, now: int)
    ensures var r := ClearAIMessages(s, noteId, now);
      && |r.notes| == |s.notes|
      && (forall i :: 0 <= i < |s.notes| ==>
            r.notes[i].aiMessages == s.notes[i].aiMessages
            && r.notes[i] == if s.notes[i].id == noteId then s.notes[i].(updatedAt := now) else s.notes[i])
      && r.(notes := s.notes) == s
  {
  }

  lemma AddGlobalAIMessageIsolated(s: StoreState, role: Role, content: string, msgId: string, now: int)
    ensures var r := AddGlobalAIMessage(s, role, content, msgId, now);
      && r.globalAIMessages == s.globalAIMessages + [AIMessage(msgId, role, content, now)]
      && r.notes == s.notes
      && r.(globalAIMessages := s.globalAIMessages) == s
  {
  }

  lemma ClearGlobalAIMessagesEmpties(s: StoreState)
    ensures var r := ClearGlobalAIMessages(s);
      r.globalAIMessages == [] && r.(globalAIMessages := s.globalAIMessages) == s
  {
  }

  /** Two states persist alike exactly when they agree on folders, notes,
      config and the global thread: selection and panel flags are never
      part of what is written. */
  lemma PartializeIsDurableSubset(s: StoreState, t: StoreState)
    ensures Partialize(s) == Partialize(t) <==>
      s.folders == t.folders && s.notes == t.notes && s.config == t.config
      && s.globalAIMessages == t.globalAIMessages
  {
  }

  /** Selecting a note and moving the AI panel do not change what is saved. */
  lemma TransientActionsKeepPersisted(s: StoreState, id: Option<string>, expanded: bool)
    ensures Partialize(SelectNote(s, id)) == Partialize(s)
    ensures Partialize(ToggleAIPanel(s)) == Partialize(s)
    ensures Partialize(SetAIPanelExpanded(s, expanded)) == Partialize(s)
    ensures SelectNote(s, id).selectedNoteId == id
    ensures ToggleAIPanel(s).isAIPanelOpen == !s.isAIPanelOpen
    ensures ToggleAIPanel(ToggleAIPanel(s)) == s
    ensures SetAIPanelExpanded(s, expanded).isAIPanelExpanded == expanded
  {
  }

  // -------------------------------------------------------- invariants

  lemma AddFolderKeepsValid(s: StoreState, name: string, parentId: Option<string>, id: string, now: int)
    requires Valid(s)
    requires forall f :: f in s.folders ==> f.id != id
    ensures Valid(AddFolder(s, name, parentId, id, now))
  {
    var r := AddFolder(s, name, parentId, id, now);
    forall i, j | 0 <= i < j < |r.folders| ensures FolderKey(r.folders[i]) != FolderKey(r.folders[j]) {
      if j == |s.folders| {
        assert r.folders[i] in s.folders;
      }
    }
  }

  lemma AddNoteKeepsValid(s: StoreState, folderId: string, title: Option<string>, id: string, now: int)
    requires Valid(s)
    requires forall n :: n in s.notes ==> n.id != id
    ensures Valid(AddNote(s, folderId, title, id, now))
  {
    var r := AddNote(s, folderId, title, id, now);
    forall i, j | 0 <= i < j < |r.notes| ensures NoteKey(r.notes[i]) != NoteKey(r.notes[j]) {
      if j == |s.notes| {
        assert r.notes[i] in s.notes;
      }
    }
  }

  lemma DeletionsKeepValid(s: StoreState, id: string)
    requires Valid(s)
    ensures Valid(DeleteFolder(s, id))
    ensures Valid(DeleteNote(s, id))
  {
    var closure := FolderTree.Descendants(s.folders, id);
    FoldersOutsideFacts(s.folders, [], closure);
    NotesWithoutFacts(s.notes, [], NotesIn(s.notes, closure));
    NotesWithoutFacts(s.notes, [], {id});
  }

  lemma UpdateFolderKeepsValid(s: StoreState, id: string, p: FolderPatch, now: int)
    requires Valid(s)
    ensures Valid(UpdateFolder(s, id, p, now))
  {
    MapIfKeepsDistinct(s.folders, (f: Folder) => f.id == id, (f: Folder) => PatchFolder(f, p, now), FolderKey);
  }

  lemma ToggleFolderExpandedKeepsValid(s: StoreState, id: string)
    requires Valid(s)
    ensures Valid(ToggleFolderExpanded(s, id))
  {
    MapIfKeepsDistinct(s.folders, (f: Folder) => f.id == id, (f: Folder) => f.(isExpanded := !f.isExpanded), FolderKey);
  }

  lemma UpdateNoteKeepsValid(s: StoreState, id: string, p: NotePatch, now: int)
    requires Valid(s)
    ensures Valid(UpdateNote(s, id, p, now))
  {
    MapIfKeepsDistinct(s.notes, (n: Note) => n.id == id, (n: Note) => PatchNote(n, p, now), NoteKey);
  }

  lemma ToggleFavoriteKeepsValid(s: StoreState, id: string)
    requires Valid(s)
    ensures Valid(ToggleFavorite(s, id))
  {
    MapIfKeepsDistinct(s.notes, (n: Note) => n.id == id, (n: Note) => n.(isFavorite := !n.isFavorite), NoteKey);
  }

  lemma MoveNoteKeepsValid(s: StoreState, noteId: string, targetFolderId: string, now: int)
    requires Valid(s)
    ensures Valid(MoveNote(s, noteId, targetFolderId, now))
  {
    MapIfKeepsDistinct(s.notes, (n: Note) => n.id == noteId,
                       (n: Note) => n.(folderId := targetFolderId, updatedAt := now), NoteKey);
  }

  lemma AddAIMessageKeepsValid(s: StoreState, noteId: string, role: Role, content: string, msgId: string, now: int)
    requires Valid(s)
    ensures Valid(AddAIMessage(s, noteId, role, content, msgId, now))
  {
    MapIfKeepsDistinct(s.notes, (n: Note) => n.id == noteId,
                       (n: Note) => n.(aiMessages := n.aiMessages + [AIMessage(msgId, role, content, now)], updatedAt := now), NoteKey);
  }

  lemma ClearAIMessagesKeepsValid(s: StoreState, noteId: string, now: int)
    requires Valid(s)
    ensures Valid(ClearAIMessages(s, noteId, now))
  {
    MapIfKeepsDistinct(s.notes, (n: Note) => n.id == noteId,
                       (n: Note) => n.(aiMessages := n.aiMessages, updatedAt := now), NoteKey);
  }

  // ---------------------------------------------------------- scenario

  /** Empty store, `initializeData`, `addNote` into the default folder,
      then `deleteFolder` on it: no folders, no notes, nothing selected. */
  lemma WelcomeScenario(folderId: string, noteId: string, newNoteId: string, t1: int, t2: int)
    requires newNoteId != ""
    ensures var s1 := InitializeData(InitialState, folderId, noteId, t1);
      var s2 := AddNote(s1, folderId, Some("Untitled"), newNoteId, t2);
      var s3 := DeleteFolder(s2, folderId);
      && |s1.folders| == 1 && |s1.notes| == 1 && s1.selectedNoteId == Some(noteId)
      && |s2.notes| == 2 && s2.selectedNoteId == Some(newNoteId)
      && |s3.folders| == 0 && |s3.notes| == 0 && s3.selectedNoteId == None
  {
    var s1 := InitializeData(InitialState, folderId, noteId, t1);
    var s2 := AddNote(s1, folderId, Some("Untitled"), newNoteId, t2);
    assert FolderTree.Descendants(s2.folders, folderId) == {folderId} by {
      FolderTree.DescendantsOfLeaf(s2.folders, folderId);
    }
    var gone := NotesIn(s2.notes, {folderId});
    assert noteId in gone && newNoteId in gone by {
      assert s2.notes[0] in s2.notes && s2.notes[1] in s2.notes;
    }
    assert FoldersOutside(s2.folders, {folderId}) == [] by {
      FoldersOutsideFacts(s2.folders, [], {folderId});
    }
    assert NotesWithout(s2.notes, gone) == [] by {
      NotesWithoutFacts(s2.notes, [], gone);
    }
  }
}

/** The state and the event handlers of the admin files page. The page's
    `useState` hooks become fields of `Page`; what the page does to the world
    outside is recorded in three logs: the backend requests it sends, the
    directories it asks the router to navigate to, and the toasts it shows. */
module FilesPage {
  import opened Wrappers
  import opened JsStrings
  import opened Directory
  import opened Listing

  /** A file the user picked in the browser's file input. */
  datatype LocalFile = LocalFile(name: string)

  /** A request to the files backend. */
  datatype Request =
    | ListFiles(dir: string)                           // GET /api/files?dir=
    | CreateFolder(dir: string, folderName: string)    // POST action=createFolder
    | Upload(dir: string, file: LocalFile)             // POST action=upload
    | Delete(dir: string, path: string)                // DELETE /api/files?dir=&path=

  /** How a create-folder, upload or delete request came back. */
  datatype Outcome =
    | Ok
      // a non-2xx response; the `message` and `error` fields of its JSON body
    | Rejected(message: Option<string>, error: Option<string>)
      // the request or the parsing of its body threw: `Some(m)` for an Error
      // whose message is `m`, `None` for any other thrown value
    | Thrown(reason: Option<string>)

  /** How a listing request came back. */
  datatype LoadOutcome =
    | Loaded(data: FilesResponse)
      // a non-2xx response: its status and its JSON body's `message` field
    | LoadRejected(status: nat, message: Option<string>)
    | LoadThrown(reason: Option<string>)

  /** A toast: the "Sucesso" kind or the destructive "Erro" kind, with its description. */
  datatype Notice = SuccessNotice(description: string) | ErrorNotice(description: string)

  /** The password used when the environment sets none. */
  const DefaultPassword: string := "admin123"

  const LoadErrorPrefix: string := "Erro ao carregar arquivos: "

  // ---------------------------------------------------------------------------
  // Error texts

  /** `error instanceof Error ? error.message : fallback`: an Error's message is
      shown even when it is empty; only a non-Error value falls back. */
  function CaughtText(thrown: Option<string>, fallback: string): (r: string)
    ensures thrown.Some? ==> r == thrown.value
    ensures thrown.None? ==> r == fallback
  {
    match thrown
    case Some(m) => m
    case None => fallback
  }

  /** The toast text after a failed create-folder, delete-folder or
      delete-image request: `data.message || data.error || fallback` for a
      rejection, where an empty field falls through to the next. */
  function RejectionText(outcome: Outcome, fallback: string): (r: string)
    requires !outcome.Ok?
    ensures outcome.Rejected? && Truthy(outcome.message) ==> r == outcome.message.value
    ensures outcome.Rejected? && !Truthy(outcome.message) && Truthy(outcome.error) ==> r == outcome.error.value
    ensures outcome.Rejected? && !Truthy(outcome.message) && !Truthy(outcome.error) ==> r == fallback
    ensures outcome.Rejected? && fallback != "" ==> r != ""
    ensures outcome.Thrown? ==> r == CaughtText(outcome.reason, fallback)
  {
    match outcome
    case Rejected(m, e) => Or(m, Or(e, fallback))
    case Thrown(t) => CaughtText(t, fallback)
  }

  /** The toast text after a failed upload: `error.message || fallback`; the
      body's `error` field is not consulted. */
  function UploadFailureText(outcome: Outcome, fallback: string): (r: string)
    requires !outcome.Ok?
    ensures outcome.Rejected? && Truthy(outcome.message) ==> r == outcome.message.value
    ensures outcome.Rejected? && !Truthy(outcome.message) ==> r == fallback
    ensures outcome.Thrown? ==> r == CaughtText(outcome.reason, fallback)
  {
    match outcome
    case Rejected(m, _) => Or(m, fallback)
    case Thrown(t) => CaughtText(t, fallback)
  }

  /** The page error after a failed listing:
      `Erro ao carregar arquivos: ${errorData.message || response.status}` for a
      rejection, the thrown error's message (or "Erro desconhecido") otherwise. */
  function LoadErrorText(outcome: LoadOutcome): (r: string)
    requires !outcome.Loaded?
    ensures outcome.LoadRejected? ==> StartsWith(r, LoadErrorPrefix) && r != ""
    ensures outcome.LoadRejected? && Truthy(outcome.message) ==>
              r[|LoadErrorPrefix|..] == outcome.message.value
    ensures outcome.LoadRejected? && !Truthy(outcome.message) ==>
              var tail := r[|LoadErrorPrefix|..];
              && (forall i :: 0 <= i < |tail| ==> IsDigit(tail[i]))
              && DecimalValue(tail) == outcome.status
    ensures outcome.LoadThrown? ==> r == CaughtText(outcome.reason, "Erro desconhecido")
  {
    match outcome
    case LoadRejected(status, m) =>
      DecimalRoundTrip(status);
      var r := LoadErrorPrefix + Or(m, NatToString(status));
      assert r[|LoadErrorPrefix|..] == Or(m, NatToString(status));
      r
    case LoadThrown(t) => CaughtText(t, "Erro desconhecido")
  }

  // ---------------------------------------------------------------------------
  // The page

  class Page {
    /** `ADMIN_PASSWORD`, read from the environment when the page starts. */
    const adminPassword: string

    /** `searchParams.get("dir") || ""` */
    var currentDir: string

    var files: Option<FilesResponse>
    var loading: bool
    var error: Option<string>
    var isAuthenticated: bool
    var password: string
    var showCreateFolder: bool
    var newFolderName: string
    var showDeleteConfirm: bool
    var selectedFolder: Option<Category>
    var deleteSuccess: bool
    var isDeleting: bool
    var searchQuery: string
    /** The value of the hidden file input. */
    var fileInputValue: string

    /** Every request sent to the backend, oldest first. */
    var requests: seq<Request>
    /** Every directory handed to the router, oldest first. */
    var navigations: seq<string>
    /** Every toast shown, oldest first. */
    var notices: seq<Notice>

    /** Nothing reaches the backend before the password is accepted; a folder
        deletion is never left half-way between events; the success phase of
        the delete dialog only exists inside the open dialog of a chosen folder.
        The last two hold because every handler is one atomic step. */
    ghost predicate Valid()
      reads this
    {
      (!isAuthenticated ==> requests == [])
      && !isDeleting
      && (deleteSuccess ==> showDeleteConfirm && selectedFolder.Some?)
    }

    constructor (dirParam: Option<string>, passwordEnv: Option<string>)
      ensures Valid()
      ensures adminPassword == Or(passwordEnv, DefaultPassword)
      ensures currentDir == Or(dirParam, "")
      ensures files == None && loading && error == None
      ensures !isAuthenticated && password == ""
      ensures !showCreateFolder && newFolderName == ""
      ensures !showDeleteConfirm && selectedFolder == None && !deleteSuccess && !isDeleting
      ensures searchQuery == "" && fileInputValue == ""
      ensures requests == [] && navigations == [] && notices == []
    {
      adminPassword := Or(passwordEnv, DefaultPassword);
      currentDir := Or(dirParam, "");
      files := None;
      loading := true;
      error := None;
      isAuthenticated := false;
      password := "";
      showCreateFolder := false;
      newFolderName := "";
      showDeleteConfirm := false;
      selectedFolder := None;
      deleteSuccess := false;
      isDeleting := false;
      searchQuery := "";
      fileInputValue := "";
      requests := [];
      navigations := [];
      notices := [];
    }

    /** What the listing card shows now. */
    function CurrentView(): View
      reads this
    {
      SelectView(files, loading, error, currentDir, searchQuery)
    }

    /** The "Criar Pasta" button is enabled only for a name that is not blank. */
    predicate CreateFolderEnabled()
      reads this
    {
      Trim(newFolderName) != ""
    }

    // -------------------------------------------------------------------------
    // Session gate

    /** Typing in the password field. */
    method SetPassword(p: string)
      modifies this`password
      ensures password == p
    {
      password := p;
    }

    /** `handleLogin`: the right password unlocks the page, and the effect on
        `isAuthenticated` then loads the current directory; a wrong one only
        raises an alert. */
    method Login()
      requires Valid() && !isAuthenticated
      modifies this`isAuthenticated, this`loading, this`error, this`requests
      ensures Valid()
      ensures isAuthenticated == (password == adminPassword)
      ensures isAuthenticated ==> loading && error == None && requests == [ListFiles(CleanDir(currentDir))]
      ensures !isAuthenticated ==> loading == old(loading) && error == old(error) && requests == []
    {
      if password == adminPassword {
        isAuthenticated := true;
        LoadFiles();
      }
    }

    // -------------------------------------------------------------------------
    // Listing

    /** The synchronous part of `loadFiles`: mark the page loading, clear the
        error and ask for the listing of the directory without its `files/` prefix. */
    method LoadFiles()
      requires isAuthenticated
      modifies this`loading, this`error, this`requests
      ensures loading && error == None
      ensures requests == old(requests) + [ListFiles(CleanDir(currentDir))]
      ensures CurrentView() == Hidden
    {
      loading := true;
      error := None;
      requests := requests + [ListFiles(CleanDir(currentDir))];
    }

    /** The rest of `loadFiles`, once the listing request has come back: keep
        the listing, or keep the previous one and record the error text. */
    method LoadFilesCompleted(outcome: LoadOutcome)
      requires Valid() && isAuthenticated
      modifies this`files, this`loading, this`error
      ensures Valid()
      ensures !loading
      ensures outcome.Loaded? ==> files == Some(outcome.data) && error == old(error)
      ensures !outcome.Loaded? ==> files == old(files) && error == Some(LoadErrorText(outcome))
      ensures outcome.Loaded? ==> (CurrentView().Hidden? <==> Truthy(old(error)))
      ensures outcome.LoadRejected? ==> CurrentView() == Hidden
    {
      match outcome {
        case Loaded(data) =>
          files := Some(data);
        case _ =>
          error := Some(LoadErrorText(outcome));
      }
      loading := false;
    }

    /** Typing in the folder search field. */
    method SetSearchQuery(q: string)
      modifies this`searchQuery
      ensures searchQuery == q
    {
      searchQuery := q;
    }

    // -------------------------------------------------------------------------
    // Navigation

    /** The address now carries `dirParam` as its `dir` parameter: the current
        directory follows it, and when it changed on an unlocked page the
        effect on `currentDir` reloads the listing. */
    method RouteChanged(dirParam: Option<string>)
      requires Valid()
      modifies this`currentDir, this`loading, this`error, this`requests
      ensures Valid()
      ensures currentDir == Or(dirParam, "")
      ensures isAuthenticated && currentDir != old(currentDir) ==>
                loading && error == None && requests == old(requests) + [ListFiles(CleanDir(currentDir))]
      ensures !(isAuthenticated && currentDir != old(currentDir)) ==>
                loading == old(loading) && error == old(error) && requests == old(requests)
    {
      var dir := Or(dirParam, "");
      if dir != currentDir {
        currentDir := dir;
        if isAuthenticated {
          LoadFiles();
        }
      }
    }

    /** `navigateTo`: hand the directory to the router. */
    method NavigateTo(path: string)
      modifies this`navigations
      ensures navigations == old(navigations) + [path]
    {
      navigations := navigations + [path];
    }

    /** `navigateUp`: nothing at the root; otherwise split on `/`, pop the last
        part and go to the rest joined back. */
    method NavigateUp()
      modifies this`navigations
      ensures currentDir == "" ==> navigations == old(navigations)
      ensures currentDir != "" ==> navigations == old(navigations) + [ParentDir(currentDir)]
    {
      if currentDir == "" {
        return;
      }
      var parts := Split(currentDir, '/');
      parts := parts[..|parts| - 1];
      var parentDir := Join(parts, '/');
      SplitPopJoinIsParent(currentDir);
      ParentUnique(parentDir, ParentDir(currentDir), currentDir);
      NavigateTo(parentDir);
    }

    /** Clicking a folder tile goes to the folder's bare name, not to a path below `currentDir`. */
    method OpenFolder(cat: Category)
      modifies this`navigations
      ensures navigations == old(navigations) + [cat.name]
    {
      NavigateTo(cat.name);
    }

    /** Clicking a breadcrumb goes to the path it carries. */
    method OpenCrumb(crumb: Crumb)
      modifies this`navigations
      ensures navigations == old(navigations) + [crumb.path]
    {
      NavigateTo(crumb.path);
    }

    // -------------------------------------------------------------------------
    // Create folder

    /** "Add Pasta" opens the dialog; "Cancelar" and dismissing it close it. */
    method SetShowCreateFolder(open: bool)
      modifies this`showCreateFolder
      ensures showCreateFolder == open
    {
      showCreateFolder := open;
    }

    /** Typing in the folder name field. */
    method SetNewFolderName(name: string)
      modifies this`newFolderName
      ensures newFolderName == name
    {
      newFolderName := name;
    }

    /** `handleCreateFolder`: send the name as typed, with the directory as it
        is (no `files/` stripping); on success close the dialog, clear the name
        and reload. The handler itself does not check the name. */
    method HandleCreateFolder(outcome: Outcome)
      requires Valid() && isAuthenticated
      modifies this`loading, this`error, this`requests, this`notices,
               this`showCreateFolder, this`newFolderName
      ensures Valid()
      ensures !loading
      ensures var sent := old(requests) + [CreateFolder(currentDir, old(newFolderName))];
              if outcome.Ok? then
                && requests == sent + [ListFiles(CleanDir(currentDir))]
                && notices == old(notices) + [SuccessNotice("Pasta criada com sucesso")]
                && !showCreateFolder && newFolderName == "" && error == None
              else
                && requests == sent
                && notices == old(notices) + [ErrorNotice(RejectionText(outcome, "Erro ao criar pasta"))]
                && showCreateFolder == old(showCreateFolder)
                && newFolderName == old(newFolderName) && error == old(error)
    {
      loading := true;
      requests := requests + [CreateFolder(currentDir, newFolderName)];
      if outcome.Ok? {
        notices := notices + [SuccessNotice("Pasta criada com sucesso")];
        showCreateFolder := false;
        newFolderName := "";
        LoadFiles();
      } else {
        notices := notices + [ErrorNotice(RejectionText(outcome, "Erro ao criar pasta"))];
      }
      loading := false;
    }

    /** Pressing "Criar Pasta": a disabled button does nothing, so a blank name
        never reaches the backend; an enabled one runs `handleCreateFolder`. */
    method PressCreateFolder(outcome: Outcome)
      requires Valid() && isAuthenticated && showCreateFolder
      modifies this`loading, this`error, this`requests, this`notices,
               this`showCreateFolder, this`newFolderName
      ensures Valid()
      ensures !old(CreateFolderEnabled()) ==> unchanged(this)
      ensures old(CreateFolderEnabled()) ==>
                && !loading
                && var sent := old(requests) + [CreateFolder(currentDir, old(newFolderName))];
                   if outcome.Ok? then
                     && requests == sent + [ListFiles(CleanDir(currentDir))]
                     && notices == old(notices) + [SuccessNotice("Pasta criada com sucesso")]
                     && !showCreateFolder && newFolderName == "" && error == None
                   else
                     && requests == sent
                     && notices == old(notices) + [ErrorNotice(RejectionText(outcome, "Erro ao criar pasta"))]
                     && showCreateFolder && newFolderName == old(newFolderName) && error == old(error)
    {
      if CreateFolderEnabled() {
        HandleCreateFolder(outcome);
      }
    }

    // -------------------------------------------------------------------------
    // Upload

    /** `handleFileUpload`: an empty selection does nothing; otherwise only the
        first file is sent, to the directory without its `files/` prefix, and
        whatever the outcome the page stops loading and the file input is cleared. */
    method HandleFileUpload(selection: seq<LocalFile>, outcome: Outcome)
      requires Valid() && isAuthenticated
      modifies this`loading, this`error, this`requests, this`notices, this`fileInputValue
      ensures Valid()
      ensures selection == [] ==> unchanged(this)
      ensures selection != [] ==>
                var sent := old(requests) + [Upload(CleanDir(currentDir), selection[0])];
                && !loading && fileInputValue == ""
                && if outcome.Ok? then
                     && requests == sent + [ListFiles(CleanDir(currentDir))]
                     && notices == old(notices) + [SuccessNotice("Arquivo enviado com sucesso")]
                     && error == None
                   else
                     && requests == sent
                     && notices == old(notices) + [ErrorNotice(UploadFailureText(outcome, "Erro ao fazer upload do arquivo"))]
                     && error == old(error)
    {
      if selection == [] {
        return;
      }
      loading := true;
      requests := requests + [Upload(CleanDir(currentDir), selection[0])];
      if outcome.Ok? {
        notices := notices + [SuccessNotice("Arquivo enviado com sucesso")];
        LoadFiles();
      } else {
        notices := notices + [ErrorNotice(UploadFailureText(outcome, "Erro ao fazer upload do arquivo"))];
      }
      loading := false;
      fileInputValue := "";
    }

    // -------------------------------------------------------------------------
    // Delete image

    /** `handleDeleteImage`: without the user's confirmation nothing happens;
        otherwise delete the image by name in the directory as it is, and
        reload on success. */
    method HandleDeleteImage(img: Image, confirmed: bool, outcome: Outcome)
      requires Valid() && isAuthenticated
      modifies this`loading, this`error, this`requests, this`notices
      ensures Valid()
      ensures !confirmed ==> unchanged(this)
      ensures confirmed ==>
                var sent := old(requests) + [Delete(currentDir, img.name)];
                && !loading
                && if outcome.Ok? then
                     && requests == sent + [ListFiles(CleanDir(currentDir))]
                     && notices == old(notices) + [SuccessNotice("Imagem excluída com sucesso!")]
                     && error == None
                   else
                     && requests == sent
                     && notices == old(notices) + [ErrorNotice(RejectionText(outcome, "Erro ao excluir imagem"))]
                     && error == old(error)
    {
      if !confirmed {
        return;
      }
      loading := true;
      requests := requests + [Delete(currentDir, img.name)];
      if outcome.Ok? {
        notices := notices + [SuccessNotice("Imagem excluída com sucesso!")];
        LoadFiles();
      } else {
        notices := notices + [ErrorNotice(RejectionText(outcome, "Erro ao excluir imagem"))];
      }
      loading := false;
    }

    // -------------------------------------------------------------------------
    // Delete folder

    /** The trash button of a folder tile: choose the folder and open the dialog. */
    method AskDeleteFolder(cat: Category)
      requires Valid()
      modifies this`selectedFolder, this`showDeleteConfirm
      ensures Valid()
      ensures selectedFolder == Some(cat) && showDeleteConfirm
    {
      selectedFolder := Some(cat);
      showDeleteConfirm := true;
    }

    /** `handleDeleteItem`, run by the dialog's "Excluir" button on the chosen
        folder: on success the dialog stays open in its success phase and the
        listing is reloaded once; on failure the dialog closes, the choice is
        cleared and nothing is reloaded. Either way the deletion is over. */
    method HandleDeleteItem(cat: Category, outcome: Outcome)
      requires Valid() && isAuthenticated
      requires showDeleteConfirm && selectedFolder == Some(cat)
      modifies this`isDeleting, this`deleteSuccess, this`showDeleteConfirm, this`selectedFolder,
               this`loading, this`error, this`requests, this`notices
      ensures Valid()
      ensures !isDeleting
      ensures outcome.Ok? ==>
                && deleteSuccess && showDeleteConfirm && selectedFolder == Some(cat)
                && requests == old(requests) + [Delete(currentDir, cat.name), ListFiles(CleanDir(currentDir))]
                && loading && error == None
                && notices == old(notices) + [SuccessNotice("Pasta excluída com sucesso!")]
                && CurrentView() == Hidden
      ensures !outcome.Ok? ==>
                && !deleteSuccess && !showDeleteConfirm && selectedFolder == None
                && requests == old(requests) + [Delete(currentDir, cat.name)]
                && loading == old(loading) && error == old(error)
                && notices == old(notices) + [ErrorNotice(RejectionText(outcome, "Erro ao excluir pasta"))]
    {
      isDeleting := true;
      deleteSuccess := false;
      requests := requests + [Delete(currentDir, cat.name)];
      if outcome.Ok? {
        deleteSuccess := true;
        notices := notices + [SuccessNotice("Pasta excluída com sucesso!")];
        LoadFiles();
      } else {
        notices := notices + [ErrorNotice(RejectionText(outcome, "Erro ao excluir pasta"))];
        showDeleteConfirm := false;
        selectedFolder := None;
      }
      isDeleting := false;
    }

    /** `handleCloseDeleteModal`: "Cancelar", "Fechar" or dismissing the dialog
        resets all four of its fields. */
    method HandleCloseDeleteModal()
      requires Valid()
      modifies this`showDeleteConfirm, this`selectedFolder, this`deleteSuccess, this`isDeleting
      ensures Valid()
      ensures !showDeleteConfirm && selectedFolder == None && !deleteSuccess && !isDeleting
    {
      showDeleteConfirm := false;
      selectedFolder := None;
      deleteSuccess := false;
      isDeleting := false;
    }
  }

  // ---------------------------------------------------------------------------
  // Scenarios

  /** Unlocking, deleting a folder and closing the dialog. */
  method DeleteFolderScenario(cat: Category)
  {
    var page := new Page(Some("cat1"), None);
    page.SetPassword("admin123");
    page.Login();
    assert page.requests == [ListFiles("cat1")];
    page.AskDeleteFolder(cat);
    page.HandleDeleteItem(cat, Ok);
    assert page.showDeleteConfirm && page.deleteSuccess && !page.isDeleting;
    assert page.requests == [ListFiles("cat1"), Delete("cat1", cat.name), ListFiles("cat1")];
    page.HandleCloseDeleteModal();
    assert !page.showDeleteConfirm && page.selectedFolder == None && !page.deleteSuccess;
    page.AskDeleteFolder(cat);
    page.HandleDeleteItem(cat, Rejected(Some(""), Some("busy")));
    assert !page.showDeleteConfirm && page.selectedFolder == None;
    assert page.notices[|page.notices| - 1] == ErrorNotice("busy");
    assert |page.requests| == 4;
  }

  /** A wrong password keeps the page locked and sends nothing. */
  method WrongPasswordScenario()
  {
    var page := new Page(None, Some("s3cret"));
    page.SetPassword("admin123");
    page.Login();
    assert !page.isAuthenticated && page.requests == [];
  }

  /** A blank folder name never reaches the backend. */
  method BlankFolderNameScenario()
  {
    var page := new Page(Some("files/a"), None);
    page.SetPassword("admin123");
    page.Login();
    assert page.requests == [ListFiles("a")];
    page.SetShowCreateFolder(true);
    page.SetNewFolderName("   ");
    assert forall i :: 0 <= i < |page.newFolderName| ==> IsWhitespace(page.newFolderName[i]);
    page.PressCreateFolder(Ok);
    assert page.requests == [ListFiles("a")];
  }

  /** An empty file selection never reaches the backend; a selection of two
      files uploads only the first. */
  method UploadScenario(f: LocalFile, g: LocalFile)
  {
    var page := new Page(Some("files/a"), None);
    page.SetPassword("admin123");
    page.Login();
    page.HandleFileUpload([], Ok);
    assert page.requests == [ListFiles("a")];
    page.HandleFileUpload([f, g], Rejected(None, Some("ignored")));
    assert page.requests == [ListFiles("a"), Upload("a", f)];
    assert page.notices == [ErrorNotice("Erro ao fazer upload do arquivo")];
    assert !page.loading && page.fileInputValue == "";
  }

  /** A folder tile opens the folder's bare name, and going up from "a/b" opens "a". */
  method NavigationScenario()
  {
    var page := new Page(Some("a/b"), None);
    page.OpenFolder(Category("1", "c", "c", []));
    assert page.navigations == ["c"];
    ParentDirExamples();
    page.NavigateUp();
    assert page.navigations == ["c", "a"];
  }
}

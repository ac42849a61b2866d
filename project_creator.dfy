/**
 * The HierarchyMaker window without its widgets: the state it keeps, the
 * settings and translation lifecycle, and the dated project-folder creation
 * behind the "create project" button.
 */
module ProjectCreator {
  import opened Wrappers
  import opened Paths
  import opened FileSystem
  import opened JsonFiles
  import opened Settings
  import opened Localisation

  /** Where projects go: the three configured path settings. */
  datatype Layout = Layout(projectPath: string, projectFolder: string, imagesFolder: string)

  /** How one press of "create project" ends. */
  datatype Outcome =
    | NameMissing                               // empty name: warning dialog, nothing touched
    | AlreadyExists(name: string, date: string) // the project folder is there already: warning dialog
    | ImagesFolderClash(path: string)           // os.makedirs raised FileExistsError for the images folder
    | Created(path: string)                     // success: the project folder path is shown

  /** An outcome together with the directory tree it leaves. */
  datatype Effect = Effect(outcome: Outcome, dirs: set<Path>)

  /** base/projectFolder/date, shared by all projects of the day. */
  function DateFolder(layout: Layout, date: string): (path: string)
    ensures !IsAbsolute(layout.projectFolder) && !IsAbsolute(date) ==>
              Segments(path) == Segments(layout.projectPath) + Segments(layout.projectFolder) + Segments(date)
    ensures IsAbsolute(layout.projectFolder) && !IsAbsolute(date) ==>
              Segments(path) == Segments(layout.projectFolder) + Segments(date)
    ensures IsAbsolute(date) ==> path == date
  {
    JoinSegments(layout.projectPath, layout.projectFolder);
    JoinSegments(Join(layout.projectPath, layout.projectFolder), date);
    Join(Join(layout.projectPath, layout.projectFolder), date)
  }

  /** The project folder: inside the date folder, unless the name is absolute. */
  function ProjectFolderPath(layout: Layout, date: string, name: string): (path: string)
    ensures IsAbsolute(name) ==> path == name
    ensures !IsAbsolute(name) ==> Segments(path) == Segments(DateFolder(layout, date)) + Segments(name)
  {
    JoinSegments(DateFolder(layout, date), name);
    Join(DateFolder(layout, date), name)
  }

  /** The images folder: inside the project folder, unless its setting is absolute. */
  function ImagesPath(layout: Layout, date: string, name: string): (path: string)
    ensures IsAbsolute(layout.imagesFolder) ==> path == layout.imagesFolder
    ensures !IsAbsolute(layout.imagesFolder) ==>
              Segments(path) == Segments(ProjectFolderPath(layout, date, name)) + Segments(layout.imagesFolder)
  {
    JoinSegments(ProjectFolderPath(layout, date, name), layout.imagesFolder);
    Join(ProjectFolderPath(layout, date, name), layout.imagesFolder)
  }

  /** The date-folder step: os.makedirs only when the folder is missing. */
  function WithDateFolder(dirs: set<Path>, layout: Layout, date: string): (r: set<Path>)
    ensures dirs <= r && Present(r, Segments(DateFolder(layout, date)))
    ensures r - dirs <= Prefixes(Segments(DateFolder(layout, date)))
    ensures Present(dirs, Segments(DateFolder(layout, date))) ==> r == dirs
    ensures ParentClosed(dirs) ==> ParentClosed(r)
  {
    var d := Segments(DateFolder(layout, date));
    if Present(dirs, d) then dirs else dirs + Prefixes(d)
  }

  /** What create_project does to a directory tree, step by step. */
  function Plan(dirs: set<Path>, layout: Layout, name: string, date: string): (r: Effect)
    ensures dirs <= r.dirs
    ensures r.outcome.NameMissing? <==> name == ""
    ensures name == "" ==> r.dirs == dirs
    ensures r.outcome.AlreadyExists? ==> r.outcome == AlreadyExists(name, date)
    ensures r.outcome.Created? ==> r.outcome.path == ProjectFolderPath(layout, date, name)
    ensures r.outcome.ImagesFolderClash? ==> r.outcome.path == ImagesPath(layout, date, name)
  {
    if name == "" then Effect(NameMissing, dirs)
    else
      var dirs1 := WithDateFolder(dirs, layout, date);
      var t := Segments(ProjectFolderPath(layout, date, name));
      if Present(dirs1, t) then Effect(AlreadyExists(name, date), dirs1)
      else
        var dirs2 := dirs1 + Prefixes(t);
        var i := Segments(ImagesPath(layout, date, name));
        if Present(dirs2, i) then Effect(ImagesFolderClash(ImagesPath(layout, date, name)), dirs2)
        else Effect(Created(ProjectFolderPath(layout, date, name)), dirs2 + Prefixes(i))
  }

  lemma PrefixesContainPath(p: Path)
    requires p != []
    ensures p in Prefixes(p)
  {
  }

  /** An empty name is rejected before the filesystem is touched. */
  lemma EmptyNameChangesNothing(dirs: set<Path>, layout: Layout, date: string)
    ensures Plan(dirs, layout, "", date) == Effect(NameMissing, dirs)
  {
  }

  /**
   * For a non-empty name: no directory is ever removed, the date folder
   * exists afterwards, and the date-folder step adds nothing when that folder
   * was already there.
   */
  lemma DateFolderEnsured(dirs: set<Path>, layout: Layout, name: string, date: string)
    requires name != ""
    ensures var r := Plan(dirs, layout, name, date);
            && dirs <= r.dirs
            && Present(r.dirs, Segments(DateFolder(layout, date)))
            && (Present(dirs, Segments(DateFolder(layout, date))) && r.outcome.AlreadyExists? ==> r.dirs == dirs)
  {
  }

  /**
   * The collision check: the call stops with AlreadyExists exactly when the
   * project folder exists once the date folder is ensured, and then it has
   * added at most the date folder and its missing ancestors.
   */
  lemma AlreadyExistsAddsOnlyDateFolder(dirs: set<Path>, layout: Layout, name: string, date: string)
    ensures var r := Plan(dirs, layout, name, date);
            && (r.outcome.AlreadyExists? <==>
                  name != "" && Present(WithDateFolder(dirs, layout, date), Segments(ProjectFolderPath(layout, date, name))))
            && (r.outcome.AlreadyExists? ==>
                  && r.outcome == AlreadyExists(name, date)
                  && r.dirs - dirs <= Prefixes(Segments(DateFolder(layout, date))))
  {
  }

  /**
   * On success the tree gains exactly the missing ancestors of the date
   * folder, of the project folder and of the images folder, the project
   * folder itself being new, and the reported path is the project folder.
   */
  lemma CreatedAddsProjectTree(dirs: set<Path>, layout: Layout, name: string, date: string)
    requires ParentClosed(dirs)
    requires Plan(dirs, layout, name, date).outcome.Created?
    ensures var r := Plan(dirs, layout, name, date);
            var d := Segments(DateFolder(layout, date));
            var t := Segments(ProjectFolderPath(layout, date, name));
            var i := Segments(ImagesPath(layout, date, name));
            && r.outcome.path == ProjectFolderPath(layout, date, name)
            && t != [] && t !in dirs && t in r.dirs && i in r.dirs
            && r.dirs == dirs + Prefixes(d) + Prefixes(t) + Prefixes(i)
  {
    var d := Segments(DateFolder(layout, date));
    var t := Segments(ProjectFolderPath(layout, date, name));
    var i := Segments(ImagesPath(layout, date, name));
    if Present(dirs, d) && d != [] {
      AncestorsPresent(dirs, d);
    }
    PrefixesContainPath(t);
    PrefixesContainPath(i);
  }

  /**
   * With a plain name (no separator) and a relative images folder, the
   * project folder is the date folder plus the name, the images folder sits
   * inside it, and everything created lies on the path to the images folder.
   */
  lemma CreatedStaysInDatedTree(dirs: set<Path>, layout: Layout, name: string, date: string)
    requires ParentClosed(dirs)
    requires name != "" && '/' !in name
    requires !IsAbsolute(layout.imagesFolder)
    requires Plan(dirs, layout, name, date).outcome.Created?
    ensures var r := Plan(dirs, layout, name, date);
            var d := Segments(DateFolder(layout, date));
            var i := Segments(ImagesPath(layout, date, name));
            && Segments(ProjectFolderPath(layout, date, name)) == d + [name]
            && i == d + [name] + Segments(layout.imagesFolder)
            && r.dirs == dirs + Prefixes(i)
  {
    var d := Segments(DateFolder(layout, date));
    var t := Segments(ProjectFolderPath(layout, date, name));
    var i := Segments(ImagesPath(layout, date, name));
    PlainNameSegments(name);
    assert !IsAbsolute(name);
    assert t == d + [name];
    assert i == t + Segments(layout.imagesFolder);
    CreatedAddsProjectTree(dirs, layout, name, date);
    PrefixesMonotone(d, i);
    PrefixesMonotone(t, i);
  }

  /** Every step only creates a path with its ancestors, so every directory's parent still exists. */
  lemma PlanKeepsParentClosed(dirs: set<Path>, layout: Layout, name: string, date: string)
    requires ParentClosed(dirs)
    ensures ParentClosed(Plan(dirs, layout, name, date).dirs)
  {
    // Dafny finds this without the steps below, but only after a search that can exhaust the resource limit.
    if name != "" {
      var dirs1 := WithDateFolder(dirs, layout, date);
      AddingPrefixesKeepsParentClosed(dirs1, Segments(ProjectFolderPath(layout, date, name)));
      AddingPrefixesKeepsParentClosed(dirs1 + Prefixes(Segments(ProjectFolderPath(layout, date, name))),
                                      Segments(ImagesPath(layout, date, name)));
    }
  }

  /**
   * The images folder cannot clash when it is a relative, non-empty
   * component under a project folder that was just created: in a
   * parent-closed tree nothing lies below a missing directory.
   */
  lemma NoImagesClashForRelativeFolder(dirs: set<Path>, layout: Layout, name: string, date: string)
    requires ParentClosed(dirs)
    requires !IsAbsolute(layout.imagesFolder) && Segments(layout.imagesFolder) != []
    ensures !Plan(dirs, layout, name, date).outcome.ImagesFolderClash?
  {
    if name != "" {
      var dirs1 := WithDateFolder(dirs, layout, date);
      var t := Segments(ProjectFolderPath(layout, date, name));
      var i := Segments(ImagesPath(layout, date, name));
      JoinSegments(ProjectFolderPath(layout, date, name), layout.imagesFolder);
      assert i == t + Segments(layout.imagesFolder);
      if !Present(dirs1, t) {
        AddingPrefixesKeepsParentClosed(dirs, Segments(DateFolder(layout, date)));
        if i in dirs1 {
          AncestorsPresent(dirs1, i);
          assert false;
        }
        assert i !in Prefixes(t);
      }
    }
  }

  /**
   * An empty images folder makes the last os.makedirs raise
   * FileExistsError: the joined path only gains a trailing separator, so it
   * names the project folder just created.
   */
  lemma EmptyImagesFolderClashes(dirs: set<Path>, layout: Layout, name: string, date: string)
    requires layout.imagesFolder == ""
    requires name != ""
    requires !Plan(dirs, layout, name, date).outcome.AlreadyExists?
    ensures Plan(dirs, layout, name, date).outcome == ImagesFolderClash(ImagesPath(layout, date, name))
  {
  }

  /**
   * Repeating a call that got as far as creating the project folder stops
   * at the collision check and leaves the tree exactly as the first call
   * left it.
   */
  lemma SecondCallFindsProject(dirs: set<Path>, layout: Layout, name: string, date: string)
    requires Plan(dirs, layout, name, date).outcome.Created? || Plan(dirs, layout, name, date).outcome.ImagesFolderClash?
    ensures var first := Plan(dirs, layout, name, date);
            Plan(first.dirs, layout, name, date) == Effect(AlreadyExists(name, date), first.dirs)
  {
  }

  /** The window's non-widget state. */
  class HierarchyMaker {
    var currentLanguage: string
    var translations: map<string, string>
    var projectPath: string
    var projectFolder: string
    var imagesFolder: string
    /** The layout direction of the label/input rows. */
    var rightToLeft: bool
    /** The new-project path field: hidden (None) until a project is created. */
    var shownProjectPath: Option<string>

    function CurrentLayout(): Layout
      reads this
    {
      Layout(projectPath, projectFolder, imagesFolder)
    }

    /** The attribute assignments of __init__, from loaded settings and a loaded table. */
    constructor (settings: map<string, string>, table: map<string, string>, home: string)
      ensures currentLanguage == GetLanguage(settings) && translations == table
      ensures (projectPath, projectFolder) == GetProjectPath(settings, home)
      ensures imagesFolder == GetImagesFolder(settings)
      ensures !rightToLeft && shownProjectPath == None
    {
      currentLanguage := GetLanguage(settings);
      translations := table;
      var (path, folder) := GetProjectPath(settings, home);
      projectPath, projectFolder := path, folder;
      imagesFolder := GetImagesFolder(settings);
      rightToLeft := false;
      shownProjectPath := None;
    }

    /**
     * save_settings: writes all four fields; a failed write only raises a
     * warning (warned), and a successful one loads back as the same fields.
     */
    method SaveSettings(store: SettingsFile) returns (warned: bool)
      modifies store`contents
      ensures warned == !store.writable
      ensures store.contents == if warned then old(store.contents)
                                else Some(Object(SavedRecord(currentLanguage, projectPath, projectFolder, imagesFolder)))
      ensures !warned ==>
                var loaded := Overlay(Defaults(), store.contents.value.entries);
                && GetLanguage(loaded) == currentLanguage
                && GetImagesFolder(loaded) == imagesFolder
                && forall home :: GetProjectPath(loaded, home) == (projectPath, projectFolder)
    {
      var ok := store.Write(SavedRecord(currentLanguage, projectPath, projectFolder, imagesFolder));
      warned := !ok;
      forall home ensures GetProjectPath(Overlay(Defaults(), SavedRecord(currentLanguage, projectPath, projectFolder, imagesFolder)), home)
                          == (projectPath, projectFolder) {
        SaveLoadRoundTrip(currentLanguage, projectPath, projectFolder, imagesFolder, home);
      }
    }

    /**
     * change_language: the language is switched first; then the table is
     * loaded (an exception here propagates and stops the rest), the layout
     * direction follows the language, and the settings are saved. The
     * result carries the save warning.
     */
    method ChangeLanguage(language: string, locales: Locales, store: SettingsFile) returns (r: Result<bool, ReadError>)
      modifies this`currentLanguage, this`translations, this`rightToLeft, store`contents
      ensures currentLanguage == language
      ensures r.Failure? <==> LoadTranslations(locales, language).Failure?
      ensures r.Failure? ==>
                && r.error == LoadTranslations(locales, language).error
                && translations == old(translations) && rightToLeft == old(rightToLeft)
                && store.contents == old(store.contents)
      ensures r.Success? ==>
                && translations == LoadTranslations(locales, language).value
                && rightToLeft == (language == RightToLeftLanguage)
                && r.value == !store.writable
                && store.contents == if store.writable
                                     then Some(Object(SavedRecord(language, projectPath, projectFolder, imagesFolder)))
                                     else old(store.contents)
    {
      currentLanguage := language;
      var table := LoadTranslations(locales, language);
      if table.Failure? {
        return Failure(table.error);
      }
      translations := table.value;
      rightToLeft := language == RightToLeftLanguage;
      var warned := SaveSettings(store);
      r := Success(warned);
    }

    /**
     * create_project with the name typed by the user and the current date:
     * the tree changes as Plan says, the path field is shown only on
     * success, and every directory's parent still exists afterwards.
     */
    method CreateProject(name: string, date: string, disk: Disk) returns (outcome: Outcome)
      requires disk.Valid()
      modifies this`shownProjectPath, disk
      ensures disk.Valid()
      ensures Effect(outcome, disk.dirs) == Plan(old(disk.dirs), CurrentLayout(), name, date)
      ensures shownProjectPath == if outcome.Created? then Some(outcome.path) else old(shownProjectPath)
    {
      if name == "" {
        return NameMissing;
      }
      var dateFolder := Join(Join(projectPath, projectFolder), date);
      if !disk.Exists(Segments(dateFolder)) {
        var _ := disk.MakeDirs(Segments(dateFolder));
      }
      var projectFolderPath := Join(dateFolder, name);
      if disk.Exists(Segments(projectFolderPath)) {
        return AlreadyExists(name, date);
      }
      var _ := disk.MakeDirs(Segments(projectFolderPath));
      var imagesPath := Join(projectFolderPath, imagesFolder);
      var created := disk.MakeDirs(Segments(imagesPath));
      if !created {
        return ImagesFolderClash(imagesPath);
      }
      shownProjectPath := Some(projectFolderPath);
      outcome := Created(projectFolderPath);
    }
  }

  /**
   * HierarchyMaker.__init__: load the settings (a file that does not decode
   * stops start-up), the table for the stored language (a missing locale
   * file stops start-up), take the paths from the settings, then apply the
   * language once more, which fixes the layout direction and saves.
   */
  method Launch(home: string, store: SettingsFile, locales: Locales) returns (r: Result<HierarchyMaker, ReadError>)
    requires store.path == SettingsFilePath(home)
    modifies store`contents
    ensures old(store.contents) == Some(Unparsable) ==>
              r == Failure(Malformed(store.path)) && store.contents == old(store.contents)
    ensures old(store.contents) != Some(Unparsable) ==>
              var settings := LoadedOrDefault(old(store.contents));
              var language := GetLanguage(settings);
              && (r.Success? <==> LoadTranslations(locales, language).Success?)
              && (r.Failure? ==> r.error == LoadTranslations(locales, language).error && store.contents == old(store.contents))
              && (r.Success? ==>
                    && fresh(r.value)
                    && r.value.currentLanguage == language
                    && r.value.translations == LoadTranslations(locales, language).value
                    && (r.value.projectPath, r.value.projectFolder) == GetProjectPath(settings, home)
                    && r.value.imagesFolder == GetImagesFolder(settings)
                    && r.value.rightToLeft == (language == RightToLeftLanguage)
                    && r.value.shownProjectPath == None
                    && store.contents == if store.writable
                                         then Some(Object(SavedRecord(language, r.value.projectPath,
                                                                      r.value.projectFolder, r.value.imagesFolder)))
                                         else old(store.contents))
  {
    var loaded := LoadSettings(store);
    if loaded.Failure? {
      return Failure(loaded.error);
    }
    var settings := loaded.value;
    var language := GetLanguage(settings);
    var table := LoadTranslations(locales, language);
    if table.Failure? {
      return Failure(table.error);
    }
    var app := new HierarchyMaker(settings, table.value, home);
    var changed := app.ChangeLanguage(app.currentLanguage, locales, store);
    r := Success(app);
  }
}

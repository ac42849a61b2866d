/** The settings store: ~/HierarchyMaker.json overlaid onto a default record. */
module Settings {
  import opened Wrappers
  import opened Paths
  import opened JsonFiles

  const SettingsFileName := "HierarchyMaker.json"
  const DefaultLanguage := "English"
  const DefaultProjectFolder := "projects"
  const DefaultImagesFolder := "images"

  /** get_settings_file: the settings file sits directly in the home directory. */
  function SettingsFilePath(home: string): (path: string)
    ensures Segments(path) == Segments(home) + [SettingsFileName]
  {
    FileNameIsPlain();
    JoinSegments(home, SettingsFileName);
    PlainNameSegments(SettingsFileName);
    Join(home, SettingsFileName)
  }

  lemma FileNameIsPlain()
    ensures SettingsFileName != "" && SettingsFileName[0] != '/' && '/' !in SettingsFileName
  {
  }

  /** dict.update: keys of `top` win, every other key of `base` stays. */
  function Overlay(base: map<string, string>, top: map<string, string>): (r: map<string, string>)
    ensures r.Keys == base.Keys + top.Keys
    ensures forall k :: k in top ==> r[k] == top[k]
    ensures forall k :: k in base && k !in top ==> r[k] == base[k]
  {
    base + top
  }

  /** The record load_settings starts from. */
  function Defaults(): (r: map<string, string>)
    ensures r.Keys == {"language"} && r["language"] == DefaultLanguage
  {
    map["language" := DefaultLanguage]
  }

  /** The record save_settings writes: all four fields, under the keys the getters read. */
  function SavedRecord(language: string, projectPath: string, projectFolder: string, imagesFolder: string): (r: map<string, string>)
    ensures r.Keys == {"language", "projectPath", "projectFolder", "imagesFolder"}
    ensures r["language"] == language && r["projectPath"] == projectPath
    ensures r["projectFolder"] == projectFolder && r["imagesFolder"] == imagesFolder
  {
    map["language" := language, "projectPath" := projectPath,
        "projectFolder" := projectFolder, "imagesFolder" := imagesFolder]
  }

  /** The settings file on disk; `writable` says whether opening it for writing succeeds. */
  class SettingsFile {
    const path: string
    var contents: Option<JsonDocument>
    var writable: bool

    constructor (home: string, contents: Option<JsonDocument>, writable: bool)
      ensures path == SettingsFilePath(home)
      ensures this.contents == contents && this.writable == writable
    {
      path := SettingsFilePath(home);
      this.contents := contents;
      this.writable := writable;
    }

    /** open(path, 'w') and json.dump: replaces the whole file, or raises and leaves it as it was. */
    method Write(record: map<string, string>) returns (ok: bool)
      modifies this`contents
      ensures ok == writable
      ensures contents == if ok then Some(Object(record)) else old(contents)
    {
      ok := writable;
      if ok {
        contents := Some(Object(record));
      }
    }
  }

  /** The settings load_settings yields from a file that decodes, or is missing. */
  function LoadedOrDefault(contents: Option<JsonDocument>): (settings: map<string, string>)
    ensures "language" in settings
    ensures contents == None ==> settings == Defaults()
    ensures contents.Some? && contents.value.Object? ==>
              && settings == Overlay(Defaults(), contents.value.entries)
              && settings.Keys == contents.value.entries.Keys + {"language"}
              && (forall k :: k in contents.value.entries ==> settings[k] == contents.value.entries[k])
              && ("language" !in contents.value.entries ==> settings["language"] == DefaultLanguage)
  {
    match contents
    case Some(Object(entries)) => Overlay(Defaults(), entries)
    case _ => Defaults()
  }

  /**
   * load_settings: a missing file yields the defaults, a file that does not
   * decode raises, and a decoded object is laid over the defaults.
   */
  method LoadSettings(file: SettingsFile) returns (r: Result<map<string, string>, ReadError>)
    ensures file.contents == Some(Unparsable) ==> r == Failure(Malformed(file.path))
    ensures file.contents != Some(Unparsable) ==> r == Success(LoadedOrDefault(file.contents))
    ensures r.Success? ==> "language" in r.value
  {
    var settings := map["language" := DefaultLanguage];
    match file.contents {
      case None =>
        r := Success(settings);
      case Some(Unparsable) =>
        r := Failure(Malformed(file.path));
      case Some(Object(entries)) =>
        settings := settings + entries;
        r := Success(settings);
    }
  }

  /** get_language */
  function GetLanguage(settings: map<string, string>): (language: string)
    ensures "language" in settings ==> language == settings["language"]
    ensures "language" !in settings ==> language == DefaultLanguage
  {
    if "language" in settings then settings["language"] else DefaultLanguage
  }

  /** get_project_path: the base directory (the home directory by default) and the projects folder. */
  function GetProjectPath(settings: map<string, string>, home: string): (r: (string, string))
    ensures "projectPath" in settings ==> r.0 == settings["projectPath"]
    ensures "projectPath" !in settings ==> r.0 == home
    ensures "projectFolder" in settings ==> r.1 == settings["projectFolder"]
    ensures "projectFolder" !in settings ==> r.1 == DefaultProjectFolder
  {
    (if "projectPath" in settings then settings["projectPath"] else home,
     if "projectFolder" in settings then settings["projectFolder"] else DefaultProjectFolder)
  }

  /** get_images_folder */
  function GetImagesFolder(settings: map<string, string>): (folder: string)
    ensures "imagesFolder" in settings ==> folder == settings["imagesFolder"]
    ensures "imagesFolder" !in settings ==> folder == DefaultImagesFolder
  {
    if "imagesFolder" in settings then settings["imagesFolder"] else DefaultImagesFolder
  }

  /**
   * The language read back after loading a stored object is the stored one
   * when the file has it and English otherwise, and every other field falls
   * back to its default exactly when the file lacks it.
   */
  lemma LoadedFields(stored: map<string, string>, home: string)
    ensures GetLanguage(Overlay(Defaults(), stored)) ==
              if "language" in stored then stored["language"] else DefaultLanguage
    ensures GetProjectPath(Overlay(Defaults(), stored), home) == GetProjectPath(stored, home)
    ensures GetImagesFolder(Overlay(Defaults(), stored)) == GetImagesFolder(stored)
  {
  }

  /** Saving the four fields and loading them back returns each field unchanged. */
  lemma SaveLoadRoundTrip(language: string, projectPath: string, projectFolder: string, imagesFolder: string, home: string)
    ensures var loaded := Overlay(Defaults(), SavedRecord(language, projectPath, projectFolder, imagesFolder));
            && GetLanguage(loaded) == language
            && GetProjectPath(loaded, home) == (projectPath, projectFolder)
            && GetImagesFolder(loaded) == imagesFolder
  {
  }
}

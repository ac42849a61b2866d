# HierarchyMaker core, modelled in Dafny

HierarchyMaker (`ProjectCreator.py`) is a one-window desktop tool. It creates a dated project
folder, `<projectPath>/<projectFolder>/<YYYY-MM-DD>/<name>/<imagesFolder>`. It also lets the user
pick the interface language. This project models the window's logic without its widgets:

- **Settings store** (`settings.dfy`). The record `{'language': 'English'}` is overlaid with the
  decoded `~/HierarchyMaker.json` (`dict.update`). The getters fill in the defaults `'English'`,
  the home directory, `'projects'` and `'images'`. Saving writes all four fields.
- **Translation catalog** (`localisation.dfy`). `locales/language_codes.json` maps language names
  to codes. An unlisted name falls back to code `en`. The table is read from
  `locales/<code>.json`, and `Translate` returns a missing key unchanged.
- **Paths and the directory tree** (`paths.dfy`, `filesystem.dfy`). `Join` is POSIX
  `os.path.join`, including the rule that an absolute component replaces everything before it.
  The directory a path string names is the sequence of its non-empty `/`-separated components
  (`Segments`). The tree is a class `Disk` holding a set of such sequences. Its invariant is that
  every directory's parent exists, which is what `os.makedirs` keeps. `Disk.MakeDirs` is
  `os.makedirs` without `exist_ok`: it fails when the path exists, and otherwise it adds the path
  and all its missing ancestors.
- **The window** (`project_creator.dfy`). The class `HierarchyMaker` holds the current language,
  the translation table, the three path settings, the layout direction and the shown
  new-project path. `CreateProject` is `create_project`, and its effect on the tree is specified
  by the pure function `Plan`. `ChangeLanguage` is `change_language`, `SaveSettings` is
  `save_settings`, and `Launch` is `__init__`.

The environment is passed in as parameters: the project name typed by the user, the current date
string, the home directory, the settings file (`SettingsFile`: its decoded contents and whether
it can be written), the locale files (`Locales`) and the directory tree (`Disk`).

Points of the code's behaviour the model keeps as written:

- Settings are saved only when the language changes (which includes start-up), not after each
  project attempt.
- The right-to-left layout is chosen by comparing the language *name* with `עברית`. It is not an
  attribute of the language entry.
- There is no rollback and no separate filesystem-error outcome. The one exception the creation
  code can raise in this model is the `FileExistsError` of the last `os.makedirs`, and that
  happens exactly when the images folder already exists (`ImagesFolderClash`). This is the case
  when `imagesFolder` is empty (`EmptyImagesFolderClashes`). It cannot happen when the images
  folder is a relative, non-empty name (`NoImagesClashForRelativeFolder`).
- A project name beginning with `/` is absolute, so `os.path.join` discards the dated folder and
  the project is created at that absolute path. The model reproduces this. `CreatedStaysInDatedTree`
  states the confinement that holds for plain names.

## Model

| member | source | states |
|---|---|---|
| `Paths.Join` | ProjectCreator.py:178-190 | POSIX `os.path.join`: an absolute component is the result; otherwise the result starts with the first component and is at most one character longer than both together |
| `Paths.JoinShape` | ProjectCreator.py:178-190 | joining a relative component ends with that component whole, and the one character Join may insert between the two is `/` |
| `Paths.JoinSegments` | ProjectCreator.py:178-190 | joining a relative component appends its components to the directory; joining an absolute one yields that component's directory alone |
| `Paths.PrefixesMonotone` | ProjectCreator.py:180 | `os.makedirs` of a longer path also creates every directory that a shorter prefix of it would |
| `Paths.AncestorsPresent` | ProjectCreator.py:179-180 | in a tree where every directory's parent exists, every ancestor of an existing directory exists |
| `Paths.AddingPrefixesKeepsParentClosed` | ProjectCreator.py:180 | creating a path with all its missing ancestors keeps every directory's parent present |
| `FileSystem.Disk.Exists` | ProjectCreator.py:179-183 | `os.path.exists`: the root always exists; any other path exists exactly when it is in the tree |
| `FileSystem.Disk.MakeDirs` | ProjectCreator.py:180 | `os.makedirs`: fails exactly when the path exists; otherwise adds exactly the path and its ancestors; keeps the parent invariant |
| `JsonFiles.ReadObject` | ProjectCreator.py:60-62 | reading a JSON file succeeds exactly when it exists and decodes; the error names the path and says whether the file was missing |
| `Settings.SettingsFilePath` | ProjectCreator.py:37-41 | the settings file is the component `HierarchyMaker.json` directly inside the home directory |
| `Settings.Defaults` | ProjectCreator.py:57-59 | the record loading starts from holds only the key `language`, set to `'English'` |
| `Settings.SavedRecord` | ProjectCreator.py:44-49 | the saved record has exactly the four keys `language`, `projectPath`, `projectFolder`, `imagesFolder`, each holding its field |
| `Settings.Overlay` | ProjectCreator.py:62 | `dict.update`: the result has both key sets; keys of the file win, other default keys keep their value |
| `Settings.LoadedOrDefault` | ProjectCreator.py:56-65 | the record loading yields: exactly the defaults for a missing file; for a decoded object, `{'language': 'English'}` overlaid with it, so every key of the file keeps its value and `language` is `'English'` when the file lacks it |
| `Settings.LoadSettings` | ProjectCreator.py:56-65 | an undecodable file raises; a missing or decoded file gives the record `LoadedOrDefault` describes; a loaded record always has a language |
| `Settings.GetLanguage` | ProjectCreator.py:70-72 | the stored language when present, else `'English'` |
| `Settings.GetProjectPath` | ProjectCreator.py:74-78 | the stored `projectPath` or the home directory, and the stored `projectFolder` or `'projects'` |
| `Settings.GetImagesFolder` | ProjectCreator.py:80-82 | the stored `imagesFolder` when present, else `'images'` |
| `Settings.LoadedFields` | ProjectCreator.py:56-82 | after loading a stored object, the language is the stored one or `'English'`, and the other getters see exactly what the file holds |
| `Settings.SaveLoadRoundTrip` | ProjectCreator.py:43-82 | loading the record that saving writes gives back the same language, projectPath, projectFolder and imagesFolder through the getters |
| `Settings.SettingsFile.Write` | ProjectCreator.py:50-54 | a write replaces the whole file when it can be opened, and otherwise leaves the file as it was |
| `Localisation.LoadLanguageCodes` | ProjectCreator.py:84-88 | succeeds exactly when the codes file exists and decodes, returning its mapping |
| `Localisation.LoadLanguageNames` | ProjectCreator.py:90-93 | the selectable languages are exactly the names in the codes file; fails when that file cannot be read |
| `Localisation.CodeFor` | ProjectCreator.py:98 | the listed code for a listed name, `"en"` for any other |
| `Localisation.LoadTranslations` | ProjectCreator.py:95-101 | fails like the codes file when that cannot be read; otherwise succeeds exactly when `locales/<code>.json` exists and decodes, and returns its table |
| `Localisation.UnlistedLanguageReadsEnglish` | ProjectCreator.py:96-101 | once the codes file loads, an unlisted language reads `locales/en.json`, whether or not any language is listed with code `en` |
| `Localisation.UnlistedLanguageFallsBack` | ProjectCreator.py:96-101 | an unlisted language gets the same table as any language listed with code `en` |
| `Localisation.LocalePath` | ProjectCreator.py:99 | the locale path is `locales/`, then the code, then `.json` |
| `Localisation.LocalePathInjective` | ProjectCreator.py:99 | distinct codes give distinct locale paths |
| `Localisation.SameTableFileIffSameCode` | ProjectCreator.py:98-99 | two listed languages read the same file exactly when their codes agree |
| `Localisation.Translate` | ProjectCreator.py:103-104 | a listed key gives its text, an unlisted key gives itself; the result is a table value or the key |
| `Localisation.TranslateIdentityIff` | ProjectCreator.py:103-104 | a key translates to itself exactly when it is unlisted or listed as itself |
| `ProjectCreator.DateFolder` | ProjectCreator.py:178 | the date folder is the base directory's components, then the projects folder's, then the date's; an absolute projects folder replaces the base directory, and an absolute date replaces both |
| `ProjectCreator.ProjectFolderPath` | ProjectCreator.py:182 | the project folder is the date folder plus the name's components, or the name itself when the name is absolute |
| `ProjectCreator.ImagesPath` | ProjectCreator.py:190 | the images folder is the project folder plus the setting's components, or the setting itself when it is absolute |
| `ProjectCreator.WithDateFolder` | ProjectCreator.py:177-180 | the date step removes nothing, leaves the date folder present, adds only the date folder and its ancestors, changes nothing when the date folder already exists, and keeps every parent present |
| `ProjectCreator.Plan` | ProjectCreator.py:170-197 | `create_project`'s effect on the tree: never removes a directory; NameMissing exactly for an empty name, with the tree unchanged; AlreadyExists carries the name and date; Created reports the project folder and ImagesFolderClash the images path |
| `ProjectCreator.EmptyNameChangesNothing` | ProjectCreator.py:171-175 | an empty name ends with NameMissing and an unchanged tree |
| `ProjectCreator.DateFolderEnsured` | ProjectCreator.py:177-180 | for a non-empty name nothing is removed and the date folder exists afterwards; when it already existed, an AlreadyExists call leaves the tree unchanged |
| `ProjectCreator.AlreadyExistsAddsOnlyDateFolder` | ProjectCreator.py:182-186 | AlreadyExists (carrying name and date) occurs exactly when the project folder exists after the date step, and then only the date folder chain may have been added |
| `ProjectCreator.CreatedAddsProjectTree` | ProjectCreator.py:177-194 | on success the reported path is the project folder, which is new, and the tree gains exactly the ancestors of the date, project and images folders |
| `ProjectCreator.CreatedStaysInDatedTree` | ProjectCreator.py:178-190 | for a plain name and relative images folder, the project folder is date folder + name, the images folder lies inside it, and everything created lies on the path to the images folder |
| `ProjectCreator.PlanKeepsParentClosed` | ProjectCreator.py:177-190 | every outcome keeps every directory's parent present |
| `ProjectCreator.NoImagesClashForRelativeFolder` | ProjectCreator.py:188-190 | a relative, non-empty images folder never makes the last `os.makedirs` raise |
| `ProjectCreator.EmptyImagesFolderClashes` | ProjectCreator.py:190 | with an empty images folder, any call that creates the project folder then raises FileExistsError on the images path |
| `ProjectCreator.SecondCallFindsProject` | ProjectCreator.py:179-190 | repeating a call that created the project folder gives AlreadyExists and leaves the tree as the first call left it |
| `ProjectCreator.HierarchyMaker.constructor` | ProjectCreator.py:15-21 | the language, table and the three path settings are taken from the loaded settings via the getters; the path field is hidden |
| `ProjectCreator.HierarchyMaker.SaveSettings` | ProjectCreator.py:43-54 | writes the four current fields or only warns; what it writes loads back as the same four fields |
| `ProjectCreator.HierarchyMaker.ChangeLanguage` | ProjectCreator.py:201-216 | the language is always switched; a failed table load leaves table, direction and settings file as they were; otherwise the table is loaded, right-to-left is set exactly for `עברית`, and the settings are saved |
| `ProjectCreator.HierarchyMaker.CreateProject` | ProjectCreator.py:170-197 | the tree changes exactly as `Plan` says, the parent invariant is kept, and the shown path becomes the project folder only on success |
| `ProjectCreator.Launch` | ProjectCreator.py:15-35 | given the settings file in the home directory: start-up fails on an undecodable settings file or a missing table, and otherwise builds the window from the loaded settings, sets the direction and saves |

## Left out

- Qt widgets are not modelled: `setup_ui`, the logo, the message boxes, `apply_settings`, the
  window title and the loop that puts `translate_key(key)` on each label. The loop over layouts
  calling `setDirection` is kept only as the single `rightToLeft` flag. The text of the warning
  messages is not modelled; `AlreadyExists` carries the name and date they mention.
- `get_current_date` (`datetime.now().strftime`) is not modelled: the date string is a parameter.
- `os.path.expanduser('~')` is not modelled: the home directory is a parameter.
- The `sys._MEIPASS` change of working directory is left out. So is relative-path resolution:
  every path is read from a single root, so a relative and an absolute spelling of the same
  components name the same directory.
- Only POSIX paths are modelled. `Join` is `posixpath.join`; the Windows rules of `ntpath.join`
  (backslash separators, drive letters) are not modelled.
- The tree compares names exactly, as a case-sensitive filesystem does. On a case-insensitive
  filesystem (the default on macOS and Windows), `os.path.exists` also finds a folder whose name
  differs only in case, so the code reports AlreadyExists where `Plan` gives Created. This is not
  modelled.
- A settings file that exists but cannot be opened (`PermissionError`, `IsADirectoryError`) is
  not modelled. `load_settings` lets those errors propagate, but `SettingsFile.contents` is only
  missing, unparsable or a decoded object.
- Path components `.` and `..`, symbolic links, regular files inside the tree, and OS failures
  of `os.makedirs` (such as permission denied) are left out, together with the partial trees
  those failures leave.
- JSON is taken as already decoded into objects with string values. Non-string values, and a
  top-level list of pairs (which `dict.update` would accept), are not modelled; every document
  that does not decode to an object counts as `Unparsable`.
- `Settings.SettingsFile.Write`: a failed write is modelled as leaving the file as it was. A
  write that fails after `open(..., 'w')` has already truncated the file is not modelled.
- `Localisation.LoadLanguageNames`: returns the set of names; the order of the list, which is
  the order of the keys in the file, is not modelled.
- `ProjectCreator.Launch`: the `load_language_names` call in `setup_ui` is not repeated. It
  cannot fail once the table for the stored language has loaded, since both read the same codes
  file.

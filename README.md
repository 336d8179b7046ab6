# adw-user-colors-lib in Dafny

A model of the library crate behind the user colour editor for libadwaita
(`com.system76.UserColorEditor`), with proofs about it.

The library does two things:

- **`ColorOverrides`**: a named record of 31 optional colour strings, one per
  libadwaita named colour (`accent_bg_color`, `window_fg_color`, …). Its
  operations are:
  - `set_key`, which writes a field through a string key;
  - `get_key`, which reads a field through a string key;
  - `as_gtk_css`, which renders the set fields as `@define-color` lines;
  - `save` and `load_from_name`, which store the record as `<name>.ron` in the
    `com.system76.UserColorEditor/color-overrides` data directory.
- **`Config`**: the names of the overrides chosen for light and for dark mode,
  kept in `config.toml`. Its operations are:
  - `load`, which writes a default config the first time;
  - `set_active_light` and `set_active_dark`;
  - `apply`, which installs the active record's stylesheet, plus an import of
    the user's `custom.css`, as GTK 4's `gtk.css`.

Files:

- `wrappers.dfy`: `Option`, `Result`, `Outcome` (the result of an operation that
  returns `Result<()>`) and the two kinds of error: a `bail!` message and a
  deserialisation failure.
- `storage.dfy`: a directory as a class holding a map from file name to
  contents. `Put` replaces one file and `Find` looks one up. A stored record is
  `Parsed(value)` or `Malformed`, so RON and TOML text never appear.
- `colors.dfy` models `colors.rs`:
  - the `Slot` enumeration of fields;
  - the key table `KeyToSlot`, with its aliasing;
  - the value-level specifications `WriteKey`, `ReadKey` and `Css` over a
    `Palette` (the map of set fields);
  - the class `ColorOverrides`, whose `SetKey` updates the object in place and
    whose `AsGtkCss` builds the stylesheet with a loop;
  - storage under `<name>.ron`.
- `config.dfy` (module `ThemeConfig`) models `config.rs`. `ActiveName`, `New`,
  `Default` and the `From` conversions are functions. `Load`,
  `SetActiveLight`/`SetActiveDark` and `Apply` are methods on directories,
  each proved against a specification function (`Bootstrap`, `Loaded`,
  `Stylesheet`).

Behaviour to note:

- `load` passes on the parse error of an unreadable `config.toml`. It does not
  replace the file with the default.
- The config is the pair `{light, dark}`. There is no static mode and no
  high-contrast flag.
- An empty name is still an active name: `ActiveName(Default(), true, d)` is
  `Some("")`, and `apply` then looks for `.ron`.
- `apply` overwrites `gtk.css` with the stylesheet followed by the import line.
  It does not edit a shared file in place.
- `ColorOverrides` has 31 colour fields.

## Model

| member | source | states |
|---|---|---|
| Colors.CssOrderListsEverySlot | adw-user-colors-lib/src/colors.rs:231-459 | every field has a line in `as_gtk_css`: it sits in the emission order at its index `CssIndex` |
| Colors.CssOrderIsAscending | adw-user-colors-lib/src/colors.rs:231-459 | the emission order lists each field once, in increasing `CssIndex` |
| Colors.CssOrderMovesShadeColor | adw-user-colors-lib/src/colors.rs:356-378 | the emission order is the declaration order (lines 14-67) with `shade_color` moved from last to right after `view_fg_color`; the two orders differ |
| Colors.WriteTarget | adw-user-colors-lib/src/colors.rs:133-143 | a status variant (`success_bg_color` …) is routed to its status colour, any other field to itself; the target is never a status variant |
| Colors.KeyToSlot | adw-user-colors-lib/src/colors.rs:122-172 | the key table; a key it recognises never designates one of the six status variants |
| Colors.KeyTableDomain | adw-user-colors-lib/src/colors.rs:122-172 | a key is recognised exactly when it is one of the 31 keys listed in the table |
| Colors.NameIsNotAKey | adw-user-colors-lib/src/colors.rs:177-229 | `"name"` is not a key |
| Colors.FieldNamesAreKeys | adw-user-colors-lib/src/colors.rs:122-172 | every field's name is a recognised key and designates that field, except that a status variant's name designates its status colour |
| Colors.Assign | adw-user-colors-lib/src/colors.rs:124-169 | assigning a field sets it to the given value (`None` clears it) and leaves every other field as it was |
| Colors.WriteKey | adw-user-colors-lib/src/colors.rs:122-175 | an unknown key fails with "Invalid key"; a field's name assigns that field, or the status colour for a status variant; the six status variants never change |
| Colors.ReadKey | adw-user-colors-lib/src/colors.rs:177-229 | an unknown key reads `None`; a field's name reads that field, or the status colour for a status variant; the name is never read |
| Colors.ReadKeyAfterWriteKey | adw-user-colors-lib/src/colors.rs:122-229 | for every recognised key and value, including `None`, the write succeeds and a read through the same key returns the value |
| Colors.WriteKeyChangesOneField | adw-user-colors-lib/src/colors.rs:122-175 | a successful write assigns exactly one field, and that field is not a status variant |
| Colors.ColorOverrides.GetKey | adw-user-colors-lib/src/colors.rs:177-229 | an unknown key, `"name"` among them, reads `None`; a field's name reads that field of the object, or the status colour for a status variant |
| Colors.SetKeyThenGetKey | adw-user-colors-lib/src/colors.rs:122-229 | on one object, `set_key` with a recognised key followed by `get_key` with the same key returns the value written, `None` included |
| Colors.ColorOverrides.SetKey | adw-user-colors-lib/src/colors.rs:122-175 | in place: succeeds exactly for the recognised keys; on success the fields become `WriteKey`'s result; on failure it reports "Invalid key" and changes nothing; the name never changes |
| Colors.DefineLine | adw-user-colors-lib/src/colors.rs:234-238 | a field's entry is `@define-color `, the field name, a space, the value unchanged, then `;` and a newline |
| Colors.Emitted | adw-user-colors-lib/src/colors.rs:231-459 | only set fields produce a line |
| Colors.EmittedCount | adw-user-colors-lib/src/colors.rs:231-459 | a set field produces one line per occurrence in the emission order; an unset field produces none |
| Colors.EmittedKeepsOrder | adw-user-colors-lib/src/colors.rs:231-459 | the lines keep the emission order |
| Colors.CssDefinesEachSetFieldOnce | adw-user-colors-lib/src/colors.rs:231-459 | `as_gtk_css` emits one `@define-color` entry for each set field, none for an unset one, in the emission order (values are not escaped, so a value holding a newline spans several text lines, as in the source) |
| Colors.CssOfNoColors | adw-user-colors-lib/src/colors.rs:231-459 | a record with no field set, like the default one, renders as the empty string |
| Colors.CssOfOneColor | adw-user-colors-lib/src/colors.rs:233-239 | a record with one field set renders as exactly `@define-color <field> <value>;\n` |
| Colors.ColorOverrides.AsGtkCss | adw-user-colors-lib/src/colors.rs:231-459 | the appending loop returns the stylesheet `Css` of the fields; the name plays no part |
| Colors.ColorOverrides.Default | adw-user-colors-lib/src/colors.rs:14-15 | `default()`: an empty name and no field set |
| Colors.ColorOverrides.ToHighContrast | adw-user-colors-lib/src/colors.rs:116-120 | the placeholder returns the record unchanged |
| Colors.ColorOverrides.Save | adw-user-colors-lib/src/colors.rs:70-82 | writes the record to `<name>.ron` and changes no other file |
| Colors.RonFileName | adw-user-colors-lib/src/colors.rs:73 | the file name is the record name followed by `.ron` |
| Colors.RonFileNameInjective | adw-user-colors-lib/src/colors.rs:73 | different names give different file names, compared as strings |
| Colors.Stored | adw-user-colors-lib/src/colors.rs:90-101 | a missing `<name>.ron` fails with the message "Failed to write RON theme."; a readable file gives its record, whatever name the record holds; an unreadable one gives the parse error; a returned record is the one in the file |
| Colors.LoadFromName | adw-user-colors-lib/src/colors.rs:90-101 | fails as `Stored` does; otherwise returns a new object holding the stored record |
| Colors.LoadAfterSave | adw-user-colors-lib/src/colors.rs:70-101 | a saved record loads back by its name |
| Colors.SaveKeepsOtherRecords | adw-user-colors-lib/src/colors.rs:70-101 | saving a record leaves what every other name loads unchanged, names compared as strings |
| ThemeConfig.ActiveName | adw-user-colors-lib/src/config.rs:92-106 | `None` exactly when the toolkit is not initialised; otherwise the dark name in dark mode and the light name in light mode |
| ThemeConfig.New | adw-user-colors-lib/src/config.rs:26-28 | both names are kept verbatim: light mode resolves to `light`, dark mode to `dark` |
| ThemeConfig.Default | adw-user-colors-lib/src/config.rs:14-20 | both modes resolve to the empty name |
| ThemeConfig.FromPair | adw-user-colors-lib/src/config.rs:121-128 | light mode resolves to the light record's name, dark mode to the dark record's |
| ThemeConfig.FromOverrides | adw-user-colors-lib/src/config.rs:130-137 | both modes resolve to the record's name |
| ThemeConfig.Save | adw-user-colors-lib/src/config.rs:31-41 | writes the config to `config.toml` and changes no other file |
| ThemeConfig.Bootstrap | adw-user-colors-lib/src/config.rs:49-57 | an existing `config.toml` is left alone; a missing one is created holding the default config |
| ThemeConfig.Loaded | adw-user-colors-lib/src/config.rs:49-67 | without `config.toml`, the default config; otherwise the file's config, or the parse error of an unreadable file |
| ThemeConfig.Load | adw-user-colors-lib/src/config.rs:49-67 | leaves the directory as `Bootstrap` says and returns `Loaded` |
| ThemeConfig.LoadIsStable | adw-user-colors-lib/src/config.rs:49-67 | a second `load` neither bootstraps nor rewrites, and returns the same value as the first |
| ThemeConfig.LoadAfterSave | adw-user-colors-lib/src/config.rs:31-67 | a saved config is not overwritten by `load` and is what `load` returns |
| ThemeConfig.SetActiveLight | adw-user-colors-lib/src/config.rs:108-112 | a failed load is passed on, with only the bootstrap written; otherwise the loaded config is saved with `light` replaced and `dark` kept |
| ThemeConfig.SetActiveDark | adw-user-colors-lib/src/config.rs:114-118 | the same for `dark`, keeping `light` |
| ThemeConfig.SetActiveThenLoad | adw-user-colors-lib/src/config.rs:108-118 | after either setter, `load` returns the new name for that mode and the old name for the other |
| ThemeConfig.Stylesheet | adw-user-colors-lib/src/config.rs:69-89 | "No configured active overrides" without an active name; "Could not find theme" without `<active>.ron`; the parse error for an unreadable `<active>.ron`; for a readable one, its record's CSS followed by the `custom.css` import line, and a success is only ever that |
| ThemeConfig.Apply | adw-user-colors-lib/src/config.rs:69-89 | on any failure, reports it and writes nothing; on success, `gtk.css` holds exactly `Stylesheet`'s text and no other file changes |
| ThemeConfig.ApplyInstallsSavedOverrides | adw-user-colors-lib/src/config.rs:130-137 | a config built from a saved record installs that record's stylesheet in either mode |
| ThemeConfig.ApplyFollowsMode | adw-user-colors-lib/src/config.rs:121-128 | a config built from a pair of saved records installs the light record's stylesheet in light mode and the dark record's in dark mode, when the two names differ as strings |

## Left out

- Widget code is not part of this model: the editor, the theme chooser, the
  import button, the theme dropdown and the window.
- `notify.rs` is not part of this model. It is file watching, it is commented
  out, and its loader is `todo!()`.
- `util.rs` is not part of this model. `hex_from_rgba` is floating-point colour
  conversion through foreign crates.
- XDG base-directory resolution and `create_dir_all` are not modelled. Each
  directory is given, already existing. `find_data_file` and
  `find_config_file` (colors.rs:95, config.rs:53, 58 and 76) also search the
  system data and configuration directories, while `place_data_file` and
  `place_config_file` write only to the user's directory; the model keeps one
  map per directory, so it merges the user's files and the system's into one
  and does not capture a system file that a user file of the same name shadows
  or that a write never replaces.
- Colors.RonFileNameInjective, Colors.SaveKeepsOtherRecords and
  ThemeConfig.ApplyFollowsMode compare record names as strings. `save`,
  `load_from_name` and `apply` join `<name>.ron` onto a directory as a path
  (colors.rs:73-75 and 94-95, config.rs:76), and the editor accepts any
  non-empty name. Path components that the file system resolves to one file
  (`/`, `.`, `..`, absolute names) are not modelled. So `"x"` and `"./x"` are
  two records here but one file in the program: saving `"./x"` changes what
  `load_from_name("x")` returns, and a pair named `"x"` and `"./x"` installs
  the dark record in both modes.
- The RON and TOML formats are not modelled. A record file holds the
  deserialised value, or is `Malformed`.
- I/O failures are not modelled. Creating, writing and opening files always
  succeed, so no path raises "failed to save theme config" or
  `save`'s "Failed to write RON theme.". The "Failed to load config" branch of
  `load` is kept, but it cannot be reached.
- `ColorOverrides::init`, `Config::init` and `ColorOverrides::load(path)` are
  not modelled. They only create a directory, or read a file by path.
- `light_default` and `dark_default` are not modelled. They deserialise bundled
  `.ron` files whose contents are not part of this model.
- `StyleManager` and `adw::is_initialized` become the boolean parameters
  `isDark` and `initialized`. Where `isDark` comes from (the given manager or
  the default one) is not modelled.
- `apply` calls `as_css`, which `colors.rs` does not define. It is taken to be
  `as_gtk_css`.
- Colors.RecognisedKeys: the proofs show that every field name is a recognised
  key, and that the recognised keys are the 31 strings of this set. That the
  set holds nothing but field names is read off its literal, not proved.

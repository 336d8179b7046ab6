/** `Config`: the persisted choice of which colour overrides are active in
    light and in dark mode, and `apply`, which installs the active overrides
    as the user's GTK 4 stylesheet. */
module ThemeConfig {
  import opened Wrappers
  import opened Storage
  import opened Colors

  /** The names of the overrides selected for light and for dark mode. */
  datatype Config = Config(light: string, dark: string)

  /** The name of the active overrides: none before the toolkit is
      initialised; otherwise the dark choice in dark mode and the light choice
      in light mode. `initialized` stands for `adw::is_initialized()` and
      `isDark` for the style manager's dark-mode flag. */
  function ActiveName(c: Config, initialized: bool, isDark: bool): (r: Option<string>)
    ensures r.None? <==> !initialized
    ensures r.Some? ==> r.value == if isDark then c.dark else c.light
  {
    if !initialized then None
    else if isDark then Some(c.dark)
    else Some(c.light)
  }

  /** `Config::new`: both names kept verbatim. */
  function New(light: string, dark: string): (c: Config)
    ensures ActiveName(c, true, false) == Some(light)
    ensures ActiveName(c, true, true) == Some(dark)
  {
    Config(light, dark)
  }

  /** `Config::default()`: two empty names. */
  function Default(): (c: Config)
    ensures forall isDark :: ActiveName(c, true, isDark) == Some("")
  {
    Config("", "")
  }

  /** `From<(ColorOverrides, ColorOverrides)>`: the light record's name for
      light mode and the dark record's name for dark mode. */
  function FromPair(light: ColorOverrides, dark: ColorOverrides): (c: Config)
    reads light, dark
    ensures ActiveName(c, true, false) == Some(light.name)
    ensures ActiveName(c, true, true) == Some(dark.name)
  {
    Config(light.name, dark.name)
  }

  /** `From<ColorOverrides>`: the record's name in both modes. */
  function FromOverrides(t: ColorOverrides): (c: Config)
    reads t
    ensures forall isDark :: ActiveName(c, true, isDark) == Some(t.name)
  {
    Config(t.name, t.name)
  }

  // ---------------------------------------------------------------------------
  // The configuration file

  const ConfigName := "config"

  /** The file in the application's configuration directory. */
  const ConfigFileName := ConfigName + ".toml"

  /** The message of the read that finds no file after the default was saved. */
  const ConfigLoadFailed := "Failed to load config"

  /** `save`: writes `c` to `config.toml`, replacing any earlier file. */
  method Save(c: Config, dir: Directory<Document<Config>>)
    modifies dir
    ensures dir.files == old(dir.files)[ConfigFileName := Parsed(c)]
  {
    dir.Put(ConfigFileName, Parsed(c));
  }

  /** The configuration directory after `load`: the default config is saved
      when no `config.toml` exists, and an existing file is left alone. */
  function Bootstrap(files: map<string, Document<Config>>): (r: map<string, Document<Config>>)
    ensures ConfigFileName in r
    ensures ConfigFileName in files ==> r == files
    ensures ConfigFileName !in files ==> r == files[ConfigFileName := Parsed(Default())]
  {
    if ConfigFileName in files then files
    else files[ConfigFileName := Parsed(Default())]
  }

  /** What `load` returns: the config read from `config.toml` once it has been
      bootstrapped, or the parse error of an unreadable file. */
  function Loaded(files: map<string, Document<Config>>): (r: Result<Config, Error>)
    ensures ConfigFileName !in files ==> r == Ok(Default())
    ensures r.Ok? <==> Bootstrap(files)[ConfigFileName].Parsed?
    ensures r.Err? ==> r.error == ParseError
    ensures ConfigFileName in files && files[ConfigFileName].Parsed? ==> r == Ok(files[ConfigFileName].value)
    ensures ConfigFileName in files && files[ConfigFileName].Malformed? ==> r == Err(ParseError)
  {
    match Bootstrap(files)[ConfigFileName]
    case Parsed(c) => Ok(c)
    case Malformed => Err(ParseError)
  }

  /** `load`: saves the default config when there is none, then reads the file. */
  method Load(dir: Directory<Document<Config>>) returns (r: Result<Config, Error>)
    modifies dir
    ensures dir.files == Bootstrap(old(dir.files))
    ensures r == Loaded(old(dir.files))
  {
    var existing := dir.Find(ConfigFileName);
    if existing.None? {
      Save(Default(), dir);
    }
    var found := dir.Find(ConfigFileName);
    match found
    case None =>
      r := Err(Bail(ConfigLoadFailed));
    case Some(Parsed(c)) =>
      r := Ok(c);
    case Some(Malformed) =>
      r := Err(ParseError);
  }

  /** A second `load` changes nothing and returns what the first returned. */
  lemma LoadIsStable(files: map<string, Document<Config>>)
    ensures Bootstrap(Bootstrap(files)) == Bootstrap(files)
    ensures Loaded(Bootstrap(files)) == Loaded(files)
  {
  }

  /** A saved config is what the next `load` returns. */
  lemma LoadAfterSave(files: map<string, Document<Config>>, c: Config)
    ensures Bootstrap(files[ConfigFileName := Parsed(c)]) == files[ConfigFileName := Parsed(c)]
    ensures Loaded(files[ConfigFileName := Parsed(c)]) == Ok(c)
  {
  }

  /** `set_active_light`: loads the config, replaces the light name, and saves
      it; a failed load is passed on. */
  method SetActiveLight(name: string, dir: Directory<Document<Config>>) returns (r: Outcome<Error>)
    modifies dir
    ensures Loaded(old(dir.files)).Err? ==> r == Fail(Loaded(old(dir.files)).error) && dir.files == Bootstrap(old(dir.files))
    ensures Loaded(old(dir.files)).Ok? ==>
      r == Pass && dir.files == Bootstrap(old(dir.files))[ConfigFileName := Parsed(Loaded(old(dir.files)).value.(light := name))]
  {
    var loaded := Load(dir);
    match loaded
    case Err(e) =>
      r := Fail(e);
    case Ok(c) =>
      var updated := c.(light := name);
      Save(updated, dir);
      r := Pass;
  }

  /** `set_active_dark`: the same with the dark name. */
  method SetActiveDark(name: string, dir: Directory<Document<Config>>) returns (r: Outcome<Error>)
    modifies dir
    ensures Loaded(old(dir.files)).Err? ==> r == Fail(Loaded(old(dir.files)).error) && dir.files == Bootstrap(old(dir.files))
    ensures Loaded(old(dir.files)).Ok? ==>
      r == Pass && dir.files == Bootstrap(old(dir.files))[ConfigFileName := Parsed(Loaded(old(dir.files)).value.(dark := name))]
  {
    var loaded := Load(dir);
    match loaded
    case Err(e) =>
      r := Fail(e);
    case Ok(c) =>
      var updated := c.(dark := name);
      Save(updated, dir);
      r := Pass;
  }

  /** After `set_active_light(name)` succeeds, `load` gives `name` for light
      mode and the previous dark name; symmetrically for `set_active_dark`. */
  lemma SetActiveThenLoad(files: map<string, Document<Config>>, name: string)
    requires Loaded(files).Ok?
    ensures Loaded(Bootstrap(files)[ConfigFileName := Parsed(Loaded(files).value.(light := name))])
         == Ok(Config(name, Loaded(files).value.dark))
    ensures Loaded(Bootstrap(files)[ConfigFileName := Parsed(Loaded(files).value.(dark := name))])
         == Ok(Config(Loaded(files).value.light, name))
  {
    var c := Loaded(files).value;
    LoadAfterSave(Bootstrap(files), c.(light := name));
    LoadAfterSave(Bootstrap(files), c.(dark := name));
  }

  // ---------------------------------------------------------------------------
  // Applying the active overrides

  const NoActiveOverrides := "No configured active overrides"
  const ThemeNotFound := "Could not find theme"

  /** The line appended after the colour definitions, so that the user's own
      `custom.css` still applies. */
  const CustomCssImport := "\n@import url(\"custom.css\");\n"

  /** The file `apply` writes in the `gtk-4.0` configuration directory. */
  const GtkCssFileName := "gtk.css"

  /** What `apply` writes to `gtk.css`, or why it fails, given the records in
      the colour-override directory. */
  function Stylesheet(c: Config, initialized: bool, isDark: bool, themes: map<string, Document<Record>>): (r: Result<string, Error>)
    ensures ActiveName(c, initialized, isDark).None? ==> r == Err(Bail(NoActiveOverrides))
    ensures ActiveName(c, initialized, isDark).Some? && RonFileName(ActiveName(c, initialized, isDark).value) !in themes
            ==> r == Err(Bail(ThemeNotFound))
    ensures r.Ok? ==>
      var file := RonFileName(ActiveName(c, initialized, isDark).value);
      file in themes && themes[file].Parsed? && r.value == Css(themes[file].value.colors) + CustomCssImport
    ensures ActiveName(c, initialized, isDark).Some? ==>
      var file := RonFileName(ActiveName(c, initialized, isDark).value);
      file in themes ==>
        (themes[file].Parsed? ==> r == Ok(Css(themes[file].value.colors) + CustomCssImport)) &&
        (themes[file].Malformed? ==> r == Err(ParseError))
  {
    match ActiveName(c, initialized, isDark)
    case None => Err(Bail(NoActiveOverrides))
    case Some(active) =>
      var file := RonFileName(active);
      if file !in themes then Err(Bail(ThemeNotFound))
      else match themes[file]
        case Malformed => Err(ParseError)
        case Parsed(t) => Ok(Css(t.colors) + CustomCssImport)
  }

  /** `apply`: resolves the active name, reads `<name>.ron`, and overwrites
      `gtk.css` with the record's stylesheet followed by the `custom.css`
      import. A failure at any step writes nothing. */
  method Apply(c: Config, initialized: bool, isDark: bool, themes: Directory<Document<Record>>, gtk: Directory<string>)
    returns (r: Outcome<Error>)
    modifies gtk
    ensures Stylesheet(c, initialized, isDark, themes.files).Err? ==>
      r == Fail(Stylesheet(c, initialized, isDark, themes.files).error) && gtk.files == old(gtk.files)
    ensures Stylesheet(c, initialized, isDark, themes.files).Ok? ==>
      r == Pass && gtk.files == old(gtk.files)[GtkCssFileName := Stylesheet(c, initialized, isDark, themes.files).value]
  {
    var active := ActiveName(c, initialized, isDark);
    if active.None? {
      return Fail(Bail(NoActiveOverrides));
    }
    var found := themes.Find(RonFileName(active.value));
    if found.None? {
      return Fail(Bail(ThemeNotFound));
    }
    if found.value.Malformed? {
      return Fail(ParseError);
    }
    var colors := new ColorOverrides.FromRecord(found.value.value);
    var css := colors.AsGtkCss();
    css := css + CustomCssImport;
    gtk.Put(GtkCssFileName, css);
    r := Pass;
  }

  /** A record that was saved and then made the config's only choice is what
      `apply` installs, in either mode. */
  lemma ApplyInstallsSavedOverrides(t: ColorOverrides, isDark: bool, themes: map<string, Document<Record>>)
    ensures Stylesheet(FromOverrides(t), true, isDark, themes[RonFileName(t.name) := Parsed(t.Snapshot())])
         == Ok(Css(t.colors) + CustomCssImport)
  {
  }

  /** The light and dark records of a pair are installed in their own modes. */
  lemma ApplyFollowsMode(light: ColorOverrides, dark: ColorOverrides, themes: map<string, Document<Record>>)
    requires light.name != dark.name
    ensures Stylesheet(FromPair(light, dark), true, false,
              themes[RonFileName(light.name) := Parsed(light.Snapshot())][RonFileName(dark.name) := Parsed(dark.Snapshot())])
         == Ok(Css(light.colors) + CustomCssImport)
    ensures Stylesheet(FromPair(light, dark), true, true,
              themes[RonFileName(light.name) := Parsed(light.Snapshot())][RonFileName(dark.name) := Parsed(dark.Snapshot())])
         == Ok(Css(dark.colors) + CustomCssImport)
  {
    if RonFileName(light.name) == RonFileName(dark.name) {
      RonFileNameInjective(light.name, dark.name);
    }
  }
}

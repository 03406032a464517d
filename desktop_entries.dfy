/**
 * The launcher files the web-app manager writes and reads back
 * (usr/lib/web-manager/common.py): `WebAppLauncher`, `get_webapps`,
 * `create_webapp` and `edit_webapp`.  The files use keys of section 6
 * (Recognized desktop entry keys) of the freedesktop.org Desktop Entry
 * Specification, plus the two extension keys X-MultipleArgs and X-WebApp-URL.
 * Files are sequences of lines, each with its "\n" as written; a directory
 * is a map from file names to what is there.
 */
module DesktopEntries {
  import opened Wrappers
  import opened Strings

  // ---------------------------------------------------------------------
  // Directories, all under the user's home directory
  // ---------------------------------------------------------------------

  function IceDir(home: string): string { home + "/.local/share/ice" }
  function AppsDir(home: string): string { home + "/.local/share/applications" }
  function ProfilesDir(home: string): string { IceDir(home) + "/profiles" }
  function FirefoxProfilesDir(home: string): string { IceDir(home) + "/firefox" }
  function FirefoxFlatpakProfilesDir(home: string): string { home + "/.var/app/org.mozilla.firefox/data/ice/firefox" }
  function EpiphanyProfilesDir(home: string): string { IceDir(home) + "/epiphany" }
  function IconsDir(home: string): string { IceDir(home) + "/icons" }

  // ---------------------------------------------------------------------
  // Reading a launcher: WebAppLauncher.__init__
  // ---------------------------------------------------------------------

  /** Which of the parser's checks a (stripped) line meets first. */
  datatype LineKind = Marker | NameLine | IconLine | ExecLine | CategoryLine | UrlLine | Other

  /** The window-class settings that mark a launcher as a web app. */
  const Markers: seq<string> := ["StartupWMClass=WebApp", "StartupWMClass=Chromium", "StartupWMClass=ICE-SSB"]

  /** The key each field line is recognised by (without its '='). */
  function KeyOf(kind: LineKind): string
  {
    match kind
    case NameLine => "Name"
    case IconLine => "Icon"
    case ExecLine => "Exec"
    case CategoryLine => "Categories"
    case UrlLine => "X-WebApp-URL"
    case _ => ""
  }

  predicate IsField(kind: LineKind)
  {
    kind != Marker && kind != Other
  }

  /** The checks run in this order and the first that holds wins; each is a substring test. */
  function Classify(line: string): LineKind
  {
    if Contains(line, Markers[0]) || Contains(line, Markers[1]) || Contains(line, Markers[2]) then Marker
    else if Contains(line, "Name=") then NameLine
    else if Contains(line, "Icon=") then IconLine
    else if Contains(line, "Exec=") then ExecLine
    else if Contains(line, "Categories=") then CategoryLine
    else if Contains(line, "X-WebApp-URL=") then UrlLine
    else Other
  }

  /** What a field line sets its field to: every "Key=" removed; for categories also every "GTK;" and ';'. */
  function Value(kind: LineKind, line: string): string
  {
    var stripped := Replace(line, KeyOf(kind) + "=", "");
    if kind == CategoryLine then Replace(Replace(stripped, "GTK;", ""), ";", "") else stripped
  }

  /** The parser's state: the local `is_webapp` flag and the fields it fills in. */
  datatype Fields = Fields(
    isWebapp: bool, name: Option<string>, icon: Option<string>,
    exec: Option<string>, category: Option<string>, url: string)

  const Init: Fields := Fields(false, None, None, None, None, "")

  /** One field of the state, by the kind of line that sets it. */
  function Field(f: Fields, kind: LineKind): Option<string>
    requires IsField(kind)
  {
    match kind
    case NameLine => f.name
    case IconLine => f.icon
    case ExecLine => f.exec
    case CategoryLine => f.category
    case UrlLine => Some(f.url)
  }

  /** The loop body for one line of the file. */
  function Step(f: Fields, raw: string): Fields
  {
    var line := Strip(raw);
    match Classify(line)
    case Marker => f.(isWebapp := true)
    case NameLine => f.(name := Some(Value(NameLine, line)))
    case IconLine => f.(icon := Some(Value(IconLine, line)))
    case ExecLine => f.(exec := Some(Value(ExecLine, line)))
    case CategoryLine => f.(category := Some(Value(CategoryLine, line)))
    case UrlLine => f.(url := Value(UrlLine, line))
    case Other => f
  }

  /** The loop over the remaining `lines`, from state `f`. */
  function Run(f: Fields, lines: seq<string>): Fields
    decreases |lines|
  {
    if lines == [] then f else Run(Step(f, lines[0]), lines[1..])
  }

  function Parse(lines: seq<string>): Fields
  {
    Run(Init, lines)
  }

  /** The launcher is usable: a web-app marker was seen and both a name and an icon were set. */
  predicate IsValid(f: Fields)
  {
    f.isWebapp && f.name.Some? && f.icon.Some?
  }

  /** A launcher file read into memory (`WebAppLauncher`). */
  class Launcher {
    var path: string
    var codename: string
    var name: Option<string>
    var icon: Option<string>
    var isValid: bool
    var exec: Option<string>
    var category: Option<string>
    var url: string

    /** The launcher shows the parsed state `f` of the file at `path`. */
    predicate Shows(path: string, codename: string, f: Fields)
      reads this
    {
      this.path == path && this.codename == codename
      && name == f.name && icon == f.icon && exec == f.exec
      && category == f.category && url == f.url && isValid == IsValid(f)
    }

    /**
     * `WebAppLauncher(path, codename)` on a file whose lines are `lines`. The
     * loop keeps the fields in locals and stores them once it is done; the
     * object is not visible to anyone before that.
     */
    constructor (path: string, codename: string, lines: seq<string>)
      ensures Shows(path, codename, Parse(lines))
    {
      var isWebapp, name, icon, exec, category, url := false, None, None, None, None, "";
      ghost var goal := Parse(lines);
      var i := 0;
      assert lines[0..] == lines;
      while i < |lines|
        invariant 0 <= i <= |lines|
        invariant goal == Run(Fields(isWebapp, name, icon, exec, category, url), lines[i..])
      {
        ghost var before := Fields(isWebapp, name, icon, exec, category, url);
        RunStep(before, lines, i);
        var line := Strip(lines[i]);
        var kind := Classify(line);
        ghost var after := Step(before, lines[i]);
        if kind == Marker {
          isWebapp := true;
        } else if kind == NameLine {
          name := Some(Value(NameLine, line));
        } else if kind == IconLine {
          icon := Some(Value(IconLine, line));
        } else if kind == ExecLine {
          exec := Some(Value(ExecLine, line));
        } else if kind == CategoryLine {
          category := Some(Value(CategoryLine, line));
        } else if kind == UrlLine {
          url := Value(UrlLine, line);
        }
        assert Fields(isWebapp, name, icon, exec, category, url) == after;
        i := i + 1;
      }
      this.path := path;
      this.codename := codename;
      this.name, this.icon, this.exec, this.category, this.url := name, icon, exec, category, url;
      isValid := isWebapp && name != None && icon != None;
    }
  }

  /** The loop over `lines[i..]` is the step for line `i`, then the loop over the rest. */
  lemma RunStep(f: Fields, lines: seq<string>, i: nat)
    requires i < |lines|
    ensures Run(f, lines[i..]) == Run(Step(f, lines[i]), lines[i + 1..])
  {
    assert lines[i..][1..] == lines[i + 1..];
  }

  // ---------------------------------------------------------------------
  // What the parser promises
  // ---------------------------------------------------------------------

  lemma {:induction false} RunAppend(f: Fields, a: seq<string>, b: seq<string>)
    ensures Run(f, a + b) == Run(Run(f, a), b)
    decreases |a|
  {
    if a != [] {
      assert (a + b)[0] == a[0] && (a + b)[1..] == a[1..] + b;
      RunAppend(Step(f, a[0]), a[1..], b);
    } else {
      assert a + b == b;
    }
  }

  /** Lines of other kinds leave a field alone. */
  lemma {:induction false} RunKeeps(f: Fields, lines: seq<string>, kind: LineKind)
    requires IsField(kind)
    requires forall j :: 0 <= j < |lines| ==> Classify(Strip(lines[j])) != kind
    ensures Field(Run(f, lines), kind) == Field(f, kind)
    decreases |lines|
  {
    if lines != [] {
      RunKeeps(Step(f, lines[0]), lines[1..], kind);
    }
  }

  /** Later lines overwrite earlier ones: a field holds the value of the last line of its kind. */
  lemma LastWins(f: Fields, before: seq<string>, line: string, after: seq<string>, kind: LineKind)
    requires IsField(kind) && Classify(Strip(line)) == kind
    requires forall j :: 0 <= j < |after| ==> Classify(Strip(after[j])) != kind
    ensures Field(Run(f, before + [line] + after), kind) == Some(Value(kind, Strip(line)))
  {
    RunAppend(f, before + [line], after);
    RunAppend(f, before, [line]);
    RunKeeps(Run(f, before + [line]), after, kind);
  }

  /** A field no line sets keeps its initial value. */
  lemma Unset(lines: seq<string>, kind: LineKind)
    requires IsField(kind)
    requires forall j :: 0 <= j < |lines| ==> Classify(Strip(lines[j])) != kind
    ensures Field(Parse(lines), kind) == Field(Init, kind)
  {
    RunKeeps(Init, lines, kind);
  }

  /** The web-app flag is set exactly when some line carries a marker. */
  lemma {:induction false} RunMarker(f: Fields, lines: seq<string>)
    ensures Run(f, lines).isWebapp
      <==> f.isWebapp || exists j :: 0 <= j < |lines| && Classify(Strip(lines[j])) == Marker
    decreases |lines|
  {
    if lines != [] {
      RunMarker(Step(f, lines[0]), lines[1..]);
      KindShift(lines, Marker);
    }
  }

  /** `is_valid` holds exactly when a marker line was seen and both a name and an icon were set. */
  lemma ValidIff(lines: seq<string>)
    ensures IsValid(Parse(lines)) <==>
      (exists j :: 0 <= j < |lines| && Classify(Strip(lines[j])) == Marker)
      && (exists j :: 0 <= j < |lines| && Classify(Strip(lines[j])) == NameLine)
      && (exists j :: 0 <= j < |lines| && Classify(Strip(lines[j])) == IconLine)
  {
    RunMarker(Init, lines);
    SetIff(Init, lines, NameLine);
    SetIff(Init, lines, IconLine);
  }

  /** An optional field ends up set exactly when it was set before or some line of its kind was seen. */
  lemma {:induction false} SetIff(f: Fields, lines: seq<string>, kind: LineKind)
    requires kind == NameLine || kind == IconLine || kind == ExecLine || kind == CategoryLine
    ensures Field(Run(f, lines), kind).Some?
      <==> Field(f, kind).Some? || exists j :: 0 <= j < |lines| && Classify(Strip(lines[j])) == kind
    decreases |lines|
  {
    if lines != [] {
      SetIff(Step(f, lines[0]), lines[1..], kind);
      StepSets(f, lines[0], kind);
      KindShift(lines, kind);
    }
  }

  /** One step sets an optional field exactly when it was set or the line is of its kind. */
  lemma StepSets(f: Fields, raw: string, kind: LineKind)
    requires kind == NameLine || kind == IconLine || kind == ExecLine || kind == CategoryLine
    ensures Field(Step(f, raw), kind).Some? <==> Field(f, kind).Some? || Classify(Strip(raw)) == kind
  {
  }

  /** Some line is of `kind` exactly when the first is or some later one is. */
  lemma KindShift(lines: seq<string>, kind: LineKind)
    requires lines != []
    ensures (exists j :: 0 <= j < |lines| && Classify(Strip(lines[j])) == kind)
      <==> Classify(Strip(lines[0])) == kind || exists j :: 0 <= j < |lines[1..]| && Classify(Strip(lines[1..][j])) == kind
  {
    if exists j :: 0 <= j < |lines| && Classify(Strip(lines[j])) == kind {
      var j :| 0 <= j < |lines| && Classify(Strip(lines[j])) == kind;
      if j > 0 {
        assert lines[1..][j - 1] == lines[j];
      }
    }
    forall j | 0 <= j < |lines[1..]|
      ensures lines[1..][j] == lines[j + 1]
    {
    }
  }

  /** The category read from a file never holds a ';'. */
  lemma {:induction false} CategoryClean(f: Fields, lines: seq<string>)
    requires f.category.Some? ==> ';' !in f.category.value
    ensures Run(f, lines).category.Some? ==> ';' !in Run(f, lines).category.value
    decreases |lines|
  {
    if lines != [] {
      var line := Strip(lines[0]);
      ReplaceDeletes(Replace(Replace(line, KeyOf(CategoryLine) + "=", ""), "GTK;", ""), ';');
      assert ";" == [';'];
      CategoryClean(Step(f, lines[0]), lines[1..]);
    }
  }

  // ---------------------------------------------------------------------
  // Listing launchers: get_webapps
  // ---------------------------------------------------------------------

  /** What a name in the applications directory turns out to be when opened. */
  datatype DirEntry = Directory | Unreadable | File(content: string)

  /** A launcher as `get_webapps` returns it, as a value. */
  datatype Listed = Listed(path: string, codename: string, fields: Fields)

  /** The file names `get_webapps` looks at. */
  predicate IsLauncherName(filename: string)
  {
    StartsWith(filename, "webapp-") && EndsWith(filename, ".desktop")
  }

  /** `filename.replace("webapp-", "").replace(".desktop", "")`. */
  function CodenameOf(filename: string): string
  {
    Replace(Replace(filename, "webapp-", ""), ".desktop", "")
  }

  /** What one name of the listing contributes: a valid launcher file, or nothing. */
  function ListedFrom(home: string, filename: string, dir: map<string, DirEntry>): seq<Listed>
  {
    if !IsLauncherName(filename) || filename !in dir || !dir[filename].File? then []
    else
      var fields := Parse(Lines(dir[filename].content));
      if IsValid(fields) then [Listed(AppsDir(home) + "/" + filename, CodenameOf(filename), fields)] else []
  }

  /** The launchers found for the names of `listing`, in listing order. */
  function Webapps(home: string, listing: seq<string>, dir: map<string, DirEntry>): seq<Listed>
  {
    if listing == [] then []
    else Webapps(home, listing[..|listing| - 1], dir) + ListedFrom(home, listing[|listing| - 1], dir)
  }

  /** At most one launcher per name of the listing. */
  lemma {:induction false} WebappsBound(home: string, listing: seq<string>, dir: map<string, DirEntry>)
    ensures |Webapps(home, listing, dir)| <= |listing|
    decreases |listing|
  {
    if listing != [] {
      WebappsBound(home, listing[..|listing| - 1], dir);
    }
  }

  /** `w` stands for a launcher-named file of `listing`. */
  predicate FromListing(w: Listed, home: string, listing: seq<string>)
  {
    exists filename :: filename in listing && IsLauncherName(filename)
      && w.path == AppsDir(home) + "/" + filename && w.codename == CodenameOf(filename)
  }

  /** Only valid launchers from launcher-named files are listed. */
  lemma {:induction false} WebappsAreValid(home: string, listing: seq<string>, dir: map<string, DirEntry>)
    ensures forall i :: 0 <= i < |Webapps(home, listing, dir)| ==>
      var w := Webapps(home, listing, dir)[i];
      IsValid(w.fields) && FromListing(w, home, listing)
    decreases |listing|
  {
    if listing != [] {
      var front := listing[..|listing| - 1];
      WebappsAreValid(home, front, dir);
      var w := Webapps(home, listing, dir);
      forall i | 0 <= i < |w|
        ensures IsValid(w[i].fields) && FromListing(w[i], home, listing)
      {
        if i < |Webapps(home, front, dir)| {
          assert FromListing(w[i], home, front);
          var filename :| filename in front && IsLauncherName(filename)
            && w[i].path == AppsDir(home) + "/" + filename && w[i].codename == CodenameOf(filename);
          assert filename in listing;
        } else {
          assert listing[|listing| - 1] in listing;
        }
      }
    }
  }

  /** `get_webapps()`: every valid launcher of the applications directory, in listing order. */
  method GetWebapps(home: string, listing: seq<string>, dir: map<string, DirEntry>) returns (webapps: seq<Launcher>)
    ensures |webapps| == |Webapps(home, listing, dir)|
    ensures forall i :: 0 <= i < |webapps| ==>
      var w := Webapps(home, listing, dir)[i];
      webapps[i].Shows(w.path, w.codename, w.fields) && webapps[i].isValid
  {
    webapps := [];
    ghost var listed: seq<Listed> := [];
    var i := 0;
    while i < |listing|
      invariant 0 <= i <= |listing|
      invariant listed == Webapps(home, listing[..i], dir)
      invariant ShowsAll(webapps, listed)
    {
      var filename := listing[i];
      WebappsSnoc(home, listing, i, dir);
      if IsLauncherName(filename) && filename in dir && dir[filename].File? {
        var path := AppsDir(home) + "/" + filename;
        var codename := CodenameOf(filename);
        var lines := Lines(dir[filename].content);
        var webapp := new Launcher(path, codename, lines);
        ListedFromFile(home, filename, dir);
        ghost var fields := Parse(lines);
        assert webapp.isValid == IsValid(fields);
        if webapp.isValid {
          ghost var entry := Listed(path, codename, fields);
          assert ListedFrom(home, filename, dir) == [entry];
          ShowsAllAppend(webapps, listed, webapp, entry);
          webapps := webapps + [webapp];
          listed := listed + [entry];
        } else {
          assert ListedFrom(home, filename, dir) == [];
          assert listed + [] == listed;
        }
      } else {
        assert ListedFrom(home, filename, dir) == [];
        assert listed + [] == listed;
      }
      assert listed == Webapps(home, listing[..i + 1], dir);
      i := i + 1;
    }
    assert listing[..|listing|] == listing;
    ShowsAllAt(webapps, listed);
  }

  /** What one name contributes, by whether it names a launcher file and whether that file is valid. */
  lemma ListedFromFile(home: string, filename: string, dir: map<string, DirEntry>)
    ensures !(IsLauncherName(filename) && filename in dir && dir[filename].File?) ==> ListedFrom(home, filename, dir) == []
    ensures IsLauncherName(filename) && filename in dir && dir[filename].File? ==>
      var fields := Parse(Lines(dir[filename].content));
      ListedFrom(home, filename, dir)
        == if IsValid(fields) then [Listed(AppsDir(home) + "/" + filename, CodenameOf(filename), fields)] else []
  {
  }

  /** Each launcher of `ws` shows the listed launcher at the same position, and is valid. */
  ghost predicate ShowsAll(ws: seq<Launcher>, ls: seq<Listed>)
    reads ws
    decreases |ws|
  {
    |ws| == |ls|
    && (ws == [] ||
        (ShowsAll(ws[..|ws| - 1], ls[..|ls| - 1])
         && var w, l := ws[|ws| - 1], ls[|ls| - 1]; w.Shows(l.path, l.codename, l.fields) && w.isValid))
  }

  lemma ShowsAllAppend(ws: seq<Launcher>, ls: seq<Listed>, w: Launcher, l: Listed)
    requires ShowsAll(ws, ls) && w.Shows(l.path, l.codename, l.fields) && w.isValid
    ensures ShowsAll(ws + [w], ls + [l])
  {
    assert (ws + [w])[..|ws|] == ws;
    assert (ls + [l])[..|ls|] == ls;
  }

  lemma {:induction false} ShowsAllAt(ws: seq<Launcher>, ls: seq<Listed>)
    requires ShowsAll(ws, ls)
    ensures |ws| == |ls|
    ensures forall i :: 0 <= i < |ws| ==> ws[i].Shows(ls[i].path, ls[i].codename, ls[i].fields) && ws[i].isValid
    decreases |ws|
  {
    if ws != [] {
      ShowsAllAt(ws[..|ws| - 1], ls[..|ls| - 1]);
    }
  }

  /** `get_webapps` over one more name of the listing: what that name contributes comes last. */
  lemma WebappsSnoc(home: string, listing: seq<string>, i: nat, dir: map<string, DirEntry>)
    requires i < |listing|
    ensures Webapps(home, listing[..i + 1], dir) == Webapps(home, listing[..i], dir) + ListedFrom(home, listing[i], dir)
  {
    assert listing[..i + 1][..i] == listing[..i];
  }

  // ---------------------------------------------------------------------
  // Writing a launcher: create_webapp
  // ---------------------------------------------------------------------

  datatype BrowserType = Firefox | FirefoxFlatpak | Chromium | Epiphany

  /** A supported browser: its family and the command that starts it. */
  datatype Browser = Browser(kind: BrowserType, name: string, execPath: string)

  /** The launcher's code name: the letters of `name` and four random digits. */
  function Codename(name: string, digits: string): string
  {
    Letters(name) + digits
  }

  function LauncherFileName(codename: string): string
  {
    "webapp-" + codename + ".desktop"
  }

  /** A key line as the writer prints it, with its line break. */
  function KeyValue(key: string, value: string): string
  {
    key + "=" + value + "\n"
  }

  /** Where the browser keeps the launcher's own profile, by browser family. */
  function ProfilePath(home: string, browser: Browser, codename: string): string
  {
    match browser.kind
    case Firefox => FirefoxProfilesDir(home) + "/" + codename
    case FirefoxFlatpak => FirefoxFlatpakProfilesDir(home) + "/" + codename
    case Epiphany => EpiphanyProfilesDir(home) + "/epiphany-" + codename
    case Chromium => ProfilesDir(home) + "/" + codename
  }

  /** The command of the Exec line, by browser family; Chromium-based browsers get their own profile unless `isolateProfile` is off. */
  function ExecCommand(home: string, url: string, icon: string, browser: Browser, codename: string, isolateProfile: bool): string
  {
    var profile := ProfilePath(home, browser, codename);
    match browser.kind
    case Firefox | FirefoxFlatpak =>
      "sh -c 'FORCE_GTKWINDOW_ICON=" + icon + " " + browser.execPath + " --class WebApp-" + codename
        + " --profile " + profile + " --no-remote " + url + "'"
    case Epiphany =>
      browser.execPath + " --application-mode " + " --profile=\"" + profile + "\"" + " " + url
    case Chromium =>
      if isolateProfile then
        browser.execPath + " --app=" + url + " --class=WebApp-" + codename + " --user-data-dir=" + profile
      else
        browser.execPath + " --app=" + url + " --class=WebApp-" + codename
  }

  /** The lines `create_webapp` writes, in order. */
  function EntryLines(name: string, url: string, icon: string, category: string, codename: string, command: string): seq<string>
  {
    [ "[Desktop Entry]\n",
      KeyValue("Version", "1.0"),
      KeyValue("Name", name),
      KeyValue("Comment", "Web App"),
      KeyValue("Exec", command),
      KeyValue("Terminal", "false"),
      KeyValue("X-MultipleArgs", "false"),
      KeyValue("Type", "Application"),
      KeyValue("Icon", icon),
      KeyValue("Categories", "GTK;" + category + ";"),
      KeyValue("MimeType", "text/html;text/xml;application/xhtml_xml;"),
      KeyValue("StartupWMClass", "WebApp-" + codename),
      KeyValue("StartupNotify", "true"),
      KeyValue("X-WebApp-URL", url) ]
  }

  /** The Exec command `create_webapp` writes for `browser`. */
  method WriteExec(home: string, url: string, icon: string, browser: Browser, codename: string, isolateProfile: bool)
    returns (command: string)
    ensures command == ExecCommand(home, url, icon, browser, codename, isolateProfile)
  {
    var profile := ProfilePath(home, browser, codename);
    if browser.kind == Firefox || browser.kind == FirefoxFlatpak {
      command := "sh -c 'FORCE_GTKWINDOW_ICON=" + icon + " " + browser.execPath
        + " --class WebApp-" + codename + " --profile " + profile + " --no-remote " + url + "'";
    } else if browser.kind == Epiphany {
      command := browser.execPath + " --application-mode " + " --profile=\"" + profile + "\"" + " " + url;
    } else if isolateProfile {
      command := browser.execPath + " --app=" + url + " --class=WebApp-" + codename + " --user-data-dir=" + profile;
    } else {
      command := browser.execPath + " --app=" + url + " --class=WebApp-" + codename;
    }
  }

  /** What `create_webapp` leaves on disk besides the lines it writes. */
  datatype Created = Created(
    launcher: string,          // the path under the applications directory
    stored: string,            // the file that holds the lines
    symlinked: bool,           // `launcher` is a symbolic link to `stored`
    profile: Option<string>)   // the profile directory created for the launcher

  /** The writes `create_webapp` makes to the new launcher file, one line at a time. */
  method WriteLines(home: string, name: string, url: string, icon: string, category: string,
                    browser: Browser, codename: string, isolateProfile: bool)
    returns (lines: seq<string>)
    ensures lines == EntryLines(name, url, icon, category, codename, ExecCommand(home, url, icon, browser, codename, isolateProfile))
  {
    lines := [];
    lines := lines + ["[Desktop Entry]\n"];
    lines := lines + [KeyValue("Version", "1.0")];
    lines := lines + [KeyValue("Name", name)];
    lines := lines + [KeyValue("Comment", "Web App")];
    var command := WriteExec(home, url, icon, browser, codename, isolateProfile);
    lines := lines + [KeyValue("Exec", command)];
    lines := lines + [KeyValue("Terminal", "false")];
    lines := lines + [KeyValue("X-MultipleArgs", "false")];
    lines := lines + [KeyValue("Type", "Application")];
    lines := lines + [KeyValue("Icon", icon)];
    lines := lines + [KeyValue("Categories", "GTK;" + category + ";")];
    lines := lines + [KeyValue("MimeType", "text/html;text/xml;application/xhtml_xml;")];
    lines := lines + [KeyValue("StartupWMClass", "WebApp-" + codename)];
    lines := lines + [KeyValue("StartupNotify", "true")];
    lines := lines + [KeyValue("X-WebApp-URL", url)];
  }

  /**
   * `create_webapp(name, url, icon, category, browser, isolate_profile)` with
   * the four random digits given: which files it creates and what it writes.
   */
  method CreateWebapp(home: string, name: string, url: string, icon: string, category: string,
                      browser: Browser, digits: string, isolateProfile: bool)
    returns (created: Created, content: string)
    ensures var codename := Codename(name, digits);
      && created.launcher == AppsDir(home) + "/" + LauncherFileName(codename)
      && (created.symlinked <==> browser.kind == Epiphany)
      && created.stored == (if browser.kind == Epiphany then ProfilePath(home, browser, codename) + "/" + ("epiphany-" + codename + ".desktop")
                            else created.launcher)
      && created.profile == (if browser.kind == Chromium then None else Some(ProfilePath(home, browser, codename)))
      && content == Concat(EntryLines(name, url, icon, category, codename, ExecCommand(home, url, icon, browser, codename, isolateProfile)))
  {
    var codename := Letters(name) + digits;
    var path := AppsDir(home) + "/" + ("webapp-" + codename + ".desktop");
    var profile := ProfilePath(home, browser, codename);
    created := Created(path, path, false, None);
    var lines := WriteLines(home, name, url, icon, category, browser, codename, isolateProfile);
    content := Concat(lines);
    if browser.kind == Firefox || browser.kind == FirefoxFlatpak {
      // the profile is copied from the shipped template
      created := created.(profile := Some(profile));
    } else if browser.kind == Epiphany {
      // the file moves into the new profile directory and a link takes its place
      created := Created(path, profile + "/" + ("epiphany-" + codename + ".desktop"), true, Some(profile));
    }
  }

  // ---------------------------------------------------------------------
  // Reading back what create_webapp writes
  // ---------------------------------------------------------------------

  /** The stripped line does not hold the key `t` followed by '='. */
  predicate Lacks(line: string, t: string)
  {
    !Contains(Strip(line), t + "=")
  }

  /** A key line whose value does not end in white space strips back to "Key=value". */
  lemma StripKeyLine(k: string, w: string)
    requires k != [] && !IsSpace(k[0])
    requires w == [] || !IsSpace(w[|w| - 1])
    ensures Strip(KeyValue(k, w)) == k + "=" + w
  {
    var line := k + "=" + w;
    assert line[0] == k[0];
    assert line[|line| - 1] == if w == [] then '=' else w[|w| - 1];
    StripNewline(line);
  }

  /** What the content of a line lacks, the stripped line lacks too. */
  lemma LacksLine(content: string, t: string)
    requires '=' !in t && !Contains(content, t + "=")
    ensures Lacks(content + "\n", t)
  {
    assert t + "=" == t + ['='];
    if Contains(Strip(content + "\n"), t + "=") {
      ContainsStrip(content + "\n", t + "=");
      ContainsDropTail(content, "\n", t, '=');
      assert false;
    }
  }

  /** A key line holds "t=" only where its key ends with `t`. */
  lemma KeyLineLacks(k: string, w: string, t: string)
    requires '=' !in k && '=' !in w && '=' !in t && !EndsWith(k, t)
    ensures Lacks(KeyValue(k, w), t)
  {
    KeyedContains(k, w, '=', t, "");
    assert t + ['='] + "" == t + "=";
    assert k + ['='] + w == k + "=" + w;
    LacksLine(k + "=" + w, t);
  }

  /** Every web-app marker starts with "StartupWMClass=". */
  lemma NoMarker(line: string)
    requires !Contains(line, "StartupWMClass=")
    ensures forall m | m in Markers :: !Contains(line, m)
  {
    forall m | m in Markers
      ensures !Contains(line, m)
    {
      assert m == "StartupWMClass=" + m[15..];
      if Contains(line, m) {
        ContainsLonger(line, "StartupWMClass=", m[15..]);
      }
    }
  }

  /** A value `create_webapp` can write after "Key=" and read back unchanged. */
  predicate Writable(w: string)
  {
    '=' !in w && (w == [] || !IsSpace(w[|w| - 1]))
  }

  /** The key line for `kind` with value `w` is read back as that field, holding `w` once the key is removed. */
  predicate ReadBack(kind: LineKind, w: string)
  {
    var line := Strip(KeyValue(KeyOf(kind), w));
    Classify(line) == kind && Replace(line, KeyOf(kind) + "=", "") == w
  }

  /** The Name, Icon, Categories and X-WebApp-URL lines are read back as written. */
  lemma FieldLineRead(kind: LineKind, w: string)
    requires kind == NameLine || kind == IconLine || kind == CategoryLine || kind == UrlLine
    requires Writable(w)
    ensures ReadBack(kind, w)
  {
    var k := KeyOf(kind);
    StripKeyLine(k, w);
    match kind {
      case NameLine => NameLineKind(w);
      case IconLine => IconLineKind(w);
      case CategoryLine => CategoryLineKind(w);
      case UrlLine => UrlLineKind(w);
    }
    ValueRead(k, w);
  }

  lemma NameLineKind(w: string)
    requires Writable(w)
    ensures Classify("Name" + "=" + w) == NameLine
  {
    assert "StartupWMClass" + "=" == "StartupWMClass=" && "Name" + "=" == "Name=";
    KeyHolds("Name", w, "StartupWMClass");
    NoMarker("Name" + "=" + w);
    KeyHolds("Name", w, "Name");
  }

  lemma IconLineKind(w: string)
    requires Writable(w)
    ensures Classify("Icon" + "=" + w) == IconLine
  {
    assert "StartupWMClass" + "=" == "StartupWMClass=" && "Name" + "=" == "Name=" && "Icon" + "=" == "Icon=";
    KeyHolds("Icon", w, "StartupWMClass");
    NoMarker("Icon" + "=" + w);
    KeyHolds("Icon", w, "Name");
    KeyHolds("Icon", w, "Icon");
  }

  lemma CategoryLineKind(w: string)
    requires Writable(w)
    ensures Classify("Categories" + "=" + w) == CategoryLine
  {
    assert "StartupWMClass" + "=" == "StartupWMClass=" && "Name" + "=" == "Name=" && "Icon" + "=" == "Icon=";
    assert "Exec" + "=" == "Exec=" && "Categories" + "=" == "Categories=";
    KeyHolds("Categories", w, "StartupWMClass");
    NoMarker("Categories" + "=" + w);
    KeyHolds("Categories", w, "Name");
    KeyHolds("Categories", w, "Icon");
    KeyHolds("Categories", w, "Exec");
    KeyHolds("Categories", w, "Categories");
  }

  lemma UrlLineKind(w: string)
    requires Writable(w)
    ensures Classify("X-WebApp-URL" + "=" + w) == UrlLine
  {
    assert "StartupWMClass" + "=" == "StartupWMClass=" && "Name" + "=" == "Name=" && "Icon" + "=" == "Icon=";
    assert "Exec" + "=" == "Exec=" && "Categories" + "=" == "Categories=" && "X-WebApp-URL" + "=" == "X-WebApp-URL=";
    KeyHolds("X-WebApp-URL", w, "StartupWMClass");
    NoMarker("X-WebApp-URL" + "=" + w);
    KeyHolds("X-WebApp-URL", w, "Name");
    KeyHolds("X-WebApp-URL", w, "Icon");
    KeyHolds("X-WebApp-URL", w, "Exec");
    KeyHolds("X-WebApp-URL", w, "Categories");
    KeyHolds("X-WebApp-URL", w, "X-WebApp-URL");
  }

  /** "Key=value" holds "t=" exactly when the key ends with `t`. */
  lemma KeyHolds(k: string, w: string, t: string)
    requires '=' !in k && '=' !in w && '=' !in t
    ensures Contains(k + "=" + w, t + "=") <==> EndsWith(k, t)
  {
    KeyedContains(k, w, '=', t, "");
    assert t + ['='] + "" == t + "=";
    assert k + ['='] + w == k + "=" + w;
  }

  /** Removing "Key=" from "Key=value" leaves the value when it has no '='. */
  lemma ValueRead(k: string, w: string)
    requires '=' !in w
    ensures Replace(k + "=" + w, k + "=", "") == w
  {
    ReplaceLeading(w, k + "=", "");
    AbsentChar(w, k + "=", '=');
    ReplaceAbsent(w, k + "=", "");
  }

  /** The category written between "GTK;" and ';' comes back from the two replacements. */
  lemma CategoryRead(category: string)
    requires ';' !in category && !EndsWith(category, "GTK")
    ensures Replace(Replace("GTK;" + category + ";", "GTK;", ""), ";", "") == category
  {
    GtkDropped(category);
    SemicolonDropped(category);
  }

  /** Only the leading "GTK;" goes: the category cannot end in "GTK" before its ';'. */
  lemma GtkDropped(category: string)
    requires ';' !in category && !EndsWith(category, "GTK")
    ensures Replace("GTK;" + category + ";", "GTK;", "") == category + ";"
  {
    var tail := category + ";";
    assert "GTK;" + category + ";" == "GTK;" + tail;
    ReplaceLeading(tail, "GTK;", "");
    assert "GTK" + [';'] + "" == "GTK;" && category + [';'] + "" == tail;
    KeyedContains(category, "", ';', "GTK", "");
    ReplaceAbsent(tail, "GTK;", "");
  }

  lemma SemicolonDropped(category: string)
    requires ';' !in category
    ensures Replace(category + ";", ";", "") == category
  {
    ReplaceSkip(category, ";", ";", "");
    assert Replace(";", ";", "") == [];
  }

  /** The Exec command cut at its '=' characters. */
  function ExecSegments(home: string, url: string, icon: string, browser: Browser, codename: string, isolateProfile: bool): (segs: seq<string>)
    ensures |segs| >= 2
  {
    var profile := ProfilePath(home, browser, codename);
    match browser.kind
    case Firefox | FirefoxFlatpak =>
      ["sh -c 'FORCE_GTKWINDOW_ICON",
       icon + " " + browser.execPath + " --class WebApp-" + codename + " --profile " + profile + " --no-remote " + url + "'"]
    case Epiphany =>
      [browser.execPath + " --application-mode  --profile", "\"" + profile + "\"" + " " + url]
    case Chromium =>
      if isolateProfile then
        [browser.execPath + " --app", url + " --class", "WebApp-" + codename + " --user-data-dir", profile]
      else
        [browser.execPath + " --app", url + " --class", "WebApp-" + codename]
  }

  lemma ExecJoined(home: string, url: string, icon: string, browser: Browser, codename: string, isolateProfile: bool)
    ensures Joined(ExecSegments(home, url, icon, browser, codename, isolateProfile), '=')
         == ExecCommand(home, url, icon, browser, codename, isolateProfile)
  {
    var profile := ProfilePath(home, browser, codename);
    var x := browser.execPath;
    match browser.kind {
      case Firefox | FirefoxFlatpak =>
        FirefoxJoined(icon, x, codename, profile, url);
      case Epiphany =>
        EpiphanyJoined(x, profile, url);
      case Chromium =>
        if isolateProfile {
          IsolatedJoined(x, url, codename, profile);
        } else {
          SharedJoined(x, url, codename);
        }
    }
  }

  lemma FirefoxJoined(icon: string, x: string, codename: string, profile: string, url: string)
    ensures Joined(["sh -c 'FORCE_GTKWINDOW_ICON", icon + " " + x + " --class WebApp-" + codename + " --profile " + profile + " --no-remote " + url + "'"], '=')
         == "sh -c 'FORCE_GTKWINDOW_ICON=" + icon + " " + x + " --class WebApp-" + codename + " --profile " + profile + " --no-remote " + url + "'"
  {
    var rest := " " + x + " --class WebApp-" + codename + " --profile " + profile + " --no-remote " + url + "'";
    var segs := ["sh -c 'FORCE_GTKWINDOW_ICON", icon + rest];
    assert segs[1..] == [icon + rest];
    assert "sh -c 'FORCE_GTKWINDOW_ICON" + ['='] == "sh -c 'FORCE_GTKWINDOW_ICON=";
    assert icon + rest == icon + " " + x + " --class WebApp-" + codename + " --profile " + profile + " --no-remote " + url + "'";
    assert "sh -c 'FORCE_GTKWINDOW_ICON=" + icon + rest
        == "sh -c 'FORCE_GTKWINDOW_ICON=" + icon + " " + x + " --class WebApp-" + codename + " --profile " + profile + " --no-remote " + url + "'";
  }

  lemma EpiphanyJoined(x: string, profile: string, url: string)
    ensures Joined([x + " --application-mode  --profile", "\"" + profile + "\"" + " " + url], '=')
         == x + " --application-mode " + " --profile=\"" + profile + "\"" + " " + url
  {
    var segs := [x + " --application-mode  --profile", "\"" + profile + "\"" + " " + url];
    assert segs[1..] == ["\"" + profile + "\"" + " " + url];
    assert " --application-mode  --profile" + ['='] + "\"" == " --application-mode " + " --profile=\"";
  }

  lemma SharedJoined(x: string, url: string, codename: string)
    ensures Joined([x + " --app", url + " --class", "WebApp-" + codename], '=')
         == x + " --app=" + url + " --class=WebApp-" + codename
  {
    var segs := [x + " --app", url + " --class", "WebApp-" + codename];
    assert segs[1..] == [url + " --class", "WebApp-" + codename];
    assert segs[1..][1..] == ["WebApp-" + codename];
    var r := url + " --class" + ['='] + ("WebApp-" + codename);
    assert Joined(segs[1..], '=') == r;
    assert r == url + (" --class" + ['='] + "WebApp-") + codename;
    assert " --class" + ['='] + "WebApp-" == " --class=WebApp-";
    assert x + " --app" + ['='] + r == x + (" --app" + ['=']) + r;
    assert " --app" + ['='] == " --app=";
  }

  lemma IsolatedJoined(x: string, url: string, codename: string, profile: string)
    ensures Joined([x + " --app", url + " --class", "WebApp-" + codename + " --user-data-dir", profile], '=')
         == x + " --app=" + url + " --class=WebApp-" + codename + " --user-data-dir=" + profile
  {
    var segs := [x + " --app", url + " --class", "WebApp-" + codename + " --user-data-dir", profile];
    assert segs[1..] == [url + " --class", "WebApp-" + codename + " --user-data-dir", profile];
    assert segs[1..][1..] == ["WebApp-" + codename + " --user-data-dir", profile];
    assert segs[1..][1..][1..] == [profile];
    var q := "WebApp-" + codename + " --user-data-dir" + ['='] + profile;
    assert Joined(segs[1..][1..], '=') == q;
    assert q == "WebApp-" + codename + (" --user-data-dir" + ['=']) + profile;
    assert " --user-data-dir" + ['='] == " --user-data-dir=";
    var r := url + " --class" + ['='] + q;
    assert Joined(segs[1..], '=') == r;
    assert r == url + (" --class" + ['='] + "WebApp-") + codename + " --user-data-dir=" + profile;
    assert " --class" + ['='] + "WebApp-" == " --class=WebApp-";
    assert x + " --app" + ['='] + r == x + (" --app" + ['=']) + r;
    assert " --app" + ['='] == " --app=";
  }

  /** The profile path has no '=' when the home directory and the code name have none. */
  lemma ProfileClean(home: string, browser: Browser, codename: string)
    requires '=' !in home && '=' !in codename
    ensures '=' !in ProfilePath(home, browser, codename)
  {
    assert '=' !in "/.local/share/ice" && '=' !in "/profiles" && '=' !in "/firefox" && '=' !in "/epiphany";
    assert '=' !in "/.var/app/org.mozilla.firefox/data/ice/firefox" && '=' !in "/" && '=' !in "/epiphany-";
  }

  /** The pieces of the Exec command between its '=' characters contain no '='. */
  lemma ExecSegmentsNoEq(home: string, url: string, icon: string, browser: Browser, codename: string, isolateProfile: bool)
    requires '=' !in home && '=' !in url && '=' !in icon && '=' !in browser.execPath && '=' !in codename
    ensures var segs := ExecSegments(home, url, icon, browser, codename, isolateProfile);
      forall i :: 0 <= i < |segs| ==> '=' !in segs[i]
  {
    ProfileClean(home, browser, codename);
    var profile := ProfilePath(home, browser, codename);
    var x := browser.execPath;
    match browser.kind {
      case Firefox | FirefoxFlatpak =>
        FirefoxNoEq(icon, x, codename, profile, url);
      case Epiphany =>
        EpiphanyNoEq(x, profile, url);
      case Chromium =>
        ChromiumNoEq(x, url, codename);
    }
  }

  lemma FirefoxNoEq(icon: string, x: string, codename: string, profile: string, url: string)
    requires '=' !in icon && '=' !in x && '=' !in codename && '=' !in profile && '=' !in url
    ensures '=' !in "sh -c 'FORCE_GTKWINDOW_ICON"
    ensures '=' !in icon + " " + x + " --class WebApp-" + codename + " --profile " + profile + " --no-remote " + url + "'"
  {
    assert '=' !in "sh -c 'FORCE_GTKWINDOW_ICON" && '=' !in " --class WebApp-" && '=' !in " --profile "
      && '=' !in " --no-remote " && '=' !in "'" && '=' !in " ";
  }

  lemma EpiphanyNoEq(x: string, profile: string, url: string)
    requires '=' !in x && '=' !in profile && '=' !in url
    ensures '=' !in x + " --application-mode  --profile"
    ensures '=' !in "\"" + profile + "\"" + " " + url
  {
    assert '=' !in " --application-mode  --profile" && '=' !in "\"" && '=' !in " ";
  }

  lemma ChromiumNoEq(x: string, url: string, codename: string)
    requires '=' !in x && '=' !in url && '=' !in codename
    ensures '=' !in x + " --app" && '=' !in url + " --class"
    ensures '=' !in "WebApp-" + codename && '=' !in "WebApp-" + codename + " --user-data-dir"
  {
    assert '=' !in " --app" && '=' !in " --class" && '=' !in "WebApp-" && '=' !in " --user-data-dir";
  }

  /** All pieces of the Exec command but the last end in option names, never in a key the parser looks for. */
  lemma ExecSegmentsEnds(home: string, url: string, icon: string, browser: Browser, codename: string, isolateProfile: bool, t: string)
    requires t == "StartupWMClass" || t == "Name" || t == "Icon" || t == "Exec"
    ensures var segs := ExecSegments(home, url, icon, browser, codename, isolateProfile);
      forall i :: 0 <= i < |segs| - 1 ==> !EndsWith(segs[i], t)
  {
    var x := browser.execPath;
    match browser.kind {
      case Firefox | FirefoxFlatpak =>
        OptionEnds("", "sh -c 'FORCE_GTKWINDOW_ICON", t);
        assert "" + "sh -c 'FORCE_GTKWINDOW_ICON" == "sh -c 'FORCE_GTKWINDOW_ICON";
      case Epiphany =>
        OptionEnds(x, " --application-mode  --profile", t);
      case Chromium =>
        OptionEnds(x, " --app", t);
        OptionEnds(url, " --class", t);
        OptionEnds("WebApp-" + codename, " --user-data-dir", t);
    }
  }

  /** Text ending in one of the Exec command's option names ends in no key the parser looks for. */
  lemma OptionEnds(x: string, option: string, t: string)
    requires option in ["sh -c 'FORCE_GTKWINDOW_ICON", " --application-mode  --profile", " --app", " --class", " --user-data-dir"]
    requires t == "StartupWMClass" || t == "Name" || t == "Icon" || t == "Exec"
    ensures !EndsWith(x + option, t)
  {
    assert !EndsWith(option, t) && !EndsWith(t, option);
    NotEndsWith(x, option, t);
  }

  /** Joined pieces whose inner ends avoid `t` hold no "t=", neither alone nor after "Exec=". */
  lemma SegmentsLack(segs: seq<string>, t: string)
    requires |segs| >= 1 && '=' !in t && !EndsWith("Exec", t)
    requires forall i :: 0 <= i < |segs| ==> '=' !in segs[i]
    requires forall i :: 0 <= i < |segs| - 1 ==> !EndsWith(segs[i], t)
    ensures !Contains("Exec=" + Joined(segs, '='), t + "=")
  {
    var all := ["Exec"] + segs;
    assert all[1..] == segs;
    assert "Exec" + ['='] == "Exec=";
    assert Joined(all, '=') == "Exec=" + Joined(segs, '=');
    assert t + "=" == t + ['='];
    assert '=' !in "Exec";
    forall i | 0 <= i < |all|
      ensures '=' !in all[i] && (i < |all| - 1 ==> !EndsWith(all[i], t))
    {
      if i > 0 {
        assert all[i] == segs[i - 1];
      }
    }
    JoinedLacks(all, '=', t);
  }

  /**
   * The Exec command holds none of the keys the parser tests before "Exec="
   * (nor "Exec=" itself): its '=' characters follow option names only.
   */
  lemma ExecLacks(home: string, url: string, icon: string, browser: Browser, codename: string, isolateProfile: bool, t: string)
    requires '=' !in home && '=' !in url && '=' !in icon && '=' !in browser.execPath && '=' !in codename
    requires t == "StartupWMClass" || t == "Name" || t == "Icon" || t == "Exec"
    ensures !Contains(ExecCommand(home, url, icon, browser, codename, isolateProfile), t + "=")
    ensures t != "Exec" ==> !Contains("Exec=" + ExecCommand(home, url, icon, browser, codename, isolateProfile), t + "=")
  {
    var segs := ExecSegments(home, url, icon, browser, codename, isolateProfile);
    ExecJoined(home, url, icon, browser, codename, isolateProfile);
    ExecSegmentsNoEq(home, url, icon, browser, codename, isolateProfile);
    ExecSegmentsEnds(home, url, icon, browser, codename, isolateProfile, t);
    assert t + "=" == t + ['='];
    JoinedLacks(segs, '=', t);
    if t != "Exec" {
      SegmentsLack(segs, t);
    }
  }

  /** What the Exec line needs to be read back as written. */
  predicate ExecWritable(home: string, url: string, icon: string, browser: Browser, codename: string)
  {
    '=' !in home && '=' !in url && '=' !in icon && '=' !in browser.execPath && '=' !in codename
    && codename != [] && IsDigit(codename[|codename| - 1])
    && url != [] && !IsSpace(url[|url| - 1])
  }

  /** The Exec line `create_webapp` writes is read back as the command written. */
  lemma ExecLineRead(home: string, url: string, icon: string, browser: Browser, codename: string, isolateProfile: bool)
    requires ExecWritable(home, url, icon, browser, codename)
    ensures var line := Strip(KeyValue("Exec", ExecCommand(home, url, icon, browser, codename, isolateProfile)));
      Classify(line) == ExecLine
      && Value(ExecLine, line) == ExecCommand(home, url, icon, browser, codename, isolateProfile)
  {
    var cmd := ExecCommand(home, url, icon, browser, codename, isolateProfile);
    ExecEnd(home, url, icon, browser, codename, isolateProfile);
    StripKeyLine("Exec", cmd);
    assert "Exec" + "=" + cmd == "Exec=" + cmd;
    ExecLineKind(home, url, icon, browser, codename, isolateProfile);
    ExecLacks(home, url, icon, browser, codename, isolateProfile, "Exec");
    ReplaceLeading(cmd, "Exec=", "");
    ReplaceAbsent(cmd, "Exec=", "");
  }

  /** The Exec command never ends in white space. */
  lemma ExecEnd(home: string, url: string, icon: string, browser: Browser, codename: string, isolateProfile: bool)
    requires codename != [] && IsDigit(codename[|codename| - 1])
    requires url != [] && !IsSpace(url[|url| - 1])
    ensures var cmd := ExecCommand(home, url, icon, browser, codename, isolateProfile);
      cmd != [] && !IsSpace(cmd[|cmd| - 1])
  {
    var profile := ProfilePath(home, browser, codename);
    var x := browser.execPath;
    match browser.kind {
      case Firefox | FirefoxFlatpak =>
        var front := "sh -c 'FORCE_GTKWINDOW_ICON=" + icon + " " + x + " --class WebApp-" + codename
          + " --profile " + profile + " --no-remote " + url;
        LastOf(front, "'");
      case Epiphany =>
        LastOf(x + " --application-mode " + " --profile=\"" + profile + "\"" + " ", url);
      case Chromium =>
        var front := x + " --app=" + url + " --class=WebApp-";
        if isolateProfile {
          LastOf(ProfilesDir(home) + "/", codename);
          LastOf(front + codename + " --user-data-dir=", profile);
        } else {
          LastOf(front, codename);
        }
    }
  }

  /** A non-empty tail decides the last character. */
  lemma LastOf(front: string, tail: string)
    requires tail != []
    ensures (front + tail)[|front + tail| - 1] == tail[|tail| - 1]
  {
  }

  lemma ExecLineKind(home: string, url: string, icon: string, browser: Browser, codename: string, isolateProfile: bool)
    requires '=' !in home && '=' !in url && '=' !in icon && '=' !in browser.execPath && '=' !in codename
    ensures Classify("Exec=" + ExecCommand(home, url, icon, browser, codename, isolateProfile)) == ExecLine
  {
    var line := "Exec=" + ExecCommand(home, url, icon, browser, codename, isolateProfile);
    assert "StartupWMClass" + "=" == "StartupWMClass=" && "Name" + "=" == "Name=" && "Icon" + "=" == "Icon=";
    ExecLacks(home, url, icon, browser, codename, isolateProfile, "StartupWMClass");
    NoMarker(line);
    ExecLacks(home, url, icon, browser, codename, isolateProfile, "Name");
    ExecLacks(home, url, icon, browser, codename, isolateProfile, "Icon");
    ContainsPrefix(line, "Exec=");
  }

  /** The launcher's window class marks it as a web app. */
  lemma MarkerLineRead(codename: string)
    requires codename != [] && IsDigit(codename[|codename| - 1])
    ensures Classify(Strip(KeyValue("StartupWMClass", "WebApp-" + codename))) == Marker
  {
    var w := "WebApp-" + codename;
    assert w[|w| - 1] == codename[|codename| - 1];
    StripKeyLine("StartupWMClass", w);
    var line := "StartupWMClass" + "=" + w;
    assert line == Markers[0] + ("-" + codename);
    ContainsPrefix(line, Markers[0]);
  }

  /**
   * What `create_webapp` needs of its arguments for the file to read back as
   * written: no value holds '=' or a line break or ends in white space, the
   * category holds no ';' and does not end in "GTK", the URL is not empty,
   * and the code name ends in a digit.
   */
  predicate Sound(home: string, name: string, url: string, icon: string, category: string, browser: Browser, codename: string)
  {
    Writable(name) && Writable(icon) && Writable(url) && url != []
    && '\n' !in name && '\n' !in icon && '\n' !in url && '\n' !in category
    && '=' !in category && ';' !in category && !EndsWith(category, "GTK")
    && '=' !in home && '=' !in browser.execPath && '\n' !in home && '\n' !in browser.execPath
    && codename != [] && IsDigit(codename[|codename| - 1]) && '=' !in codename && '\n' !in codename
  }

  /** The generated code name is letters followed by four digits. */
  lemma CodenameShape(name: string, digits: string)
    requires |digits| == 4 && forall k :: 0 <= k < |digits| ==> IsDigit(digits[k])
    ensures var codename := Codename(name, digits);
      codename != [] && IsDigit(codename[|codename| - 1]) && '=' !in codename && '\n' !in codename
      && forall k :: 0 <= k < |codename| ==> IsAlpha(codename[k]) || IsDigit(codename[k])
  {
    var codename := Codename(name, digits);
    assert forall k :: 0 <= k < |codename| ==> IsAlpha(codename[k]) || IsDigit(codename[k]) by {
      forall k | 0 <= k < |codename|
        ensures IsAlpha(codename[k]) || IsDigit(codename[k])
      {
        if k >= |Letters(name)| {
          assert codename[k] == digits[k - |Letters(name)|];
        }
      }
    }
  }

  /** A key line whose key ends with none of the keys the parser looks for is skipped. */
  lemma OtherLine(k: string, w: string)
    requires '=' !in k && '=' !in w
    requires forall t | t in ["StartupWMClass", "Name", "Icon", "Exec", "Categories", "X-WebApp-URL"] :: !EndsWith(k, t)
    ensures Classify(Strip(KeyValue(k, w))) == Other
  {
    KeyLineLacks(k, w, "StartupWMClass");
    KeyLineLacks(k, w, "Name");
    KeyLineLacks(k, w, "Icon");
    KeyLineLacks(k, w, "Exec");
    KeyLineLacks(k, w, "Categories");
    KeyLineLacks(k, w, "X-WebApp-URL");
    LacksAll(Strip(KeyValue(k, w)));
  }

  /** A stripped line lacking every key the parser looks for is skipped. */
  lemma LacksAll(line: string)
    requires !Contains(line, "StartupWMClass" + "=") && !Contains(line, "Name" + "=") && !Contains(line, "Icon" + "=")
    requires !Contains(line, "Exec" + "=") && !Contains(line, "Categories" + "=") && !Contains(line, "X-WebApp-URL" + "=")
    ensures Classify(line) == Other
  {
    assert "StartupWMClass" + "=" == "StartupWMClass=";
    assert "Name" + "=" == "Name=" && "Icon" + "=" == "Icon=" && "Exec" + "=" == "Exec=";
    assert "Categories" + "=" == "Categories=" && "X-WebApp-URL" + "=" == "X-WebApp-URL=";
    NoMarker(line);
  }

  // The key lines `create_webapp` writes with fixed values are skipped by the parser.

  lemma VersionSkipped()
    ensures Classify(Strip(KeyValue("Version", "1.0"))) == Other
  {
    OtherLine("Version", "1.0");
  }

  lemma CommentSkipped()
    ensures Classify(Strip(KeyValue("Comment", "Web App"))) == Other
  {
    OtherLine("Comment", "Web App");
  }

  lemma TerminalSkipped()
    ensures Classify(Strip(KeyValue("Terminal", "false"))) == Other
  {
    OtherLine("Terminal", "false");
  }

  lemma MultipleArgsSkipped()
    ensures Classify(Strip(KeyValue("X-MultipleArgs", "false"))) == Other
  {
    OtherLine("X-MultipleArgs", "false");
  }

  lemma TypeSkipped()
    ensures Classify(Strip(KeyValue("Type", "Application"))) == Other
  {
    OtherLine("Type", "Application");
  }

  lemma MimeTypeSkipped()
    ensures Classify(Strip(KeyValue("MimeType", "text/html;text/xml;application/xhtml_xml;"))) == Other
  {
    OtherLine("MimeType", "text/html;text/xml;application/xhtml_xml;");
  }

  lemma StartupNotifySkipped()
    ensures Classify(Strip(KeyValue("StartupNotify", "true"))) == Other
  {
    OtherLine("StartupNotify", "true");
  }

  lemma HeaderSkipped()
    ensures Classify(Strip("[Desktop Entry]\n")) == Other
  {
    assert Strip("[Desktop Entry]\n") == "[Desktop Entry]" by { StripNewline("[Desktop Entry]"); }
    assert '=' !in "[Desktop Entry]";
    NoKeyOther("[Desktop Entry]");
  }

  /** A line without '=' holds no key the parser looks for. */
  lemma NoKeyOther(line: string)
    requires '=' !in line
    ensures Classify(line) == Other
  {
    assert '=' in "StartupWMClass=" && '=' in "Name=" && '=' in "Icon=";
    assert '=' in "Exec=" && '=' in "Categories=" && '=' in "X-WebApp-URL=";
    AbsentChar(line, "StartupWMClass=", '=');
    NoMarker(line);
    AbsentChar(line, "Name=", '=');
    AbsentChar(line, "Icon=", '=');
    AbsentChar(line, "Exec=", '=');
    AbsentChar(line, "Categories=", '=');
    AbsentChar(line, "X-WebApp-URL=", '=');
  }

  /** The parser's loop takes the lines at `k` and `k + 1` before the rest. */
  lemma RunFrom(f: Fields, lines: seq<string>, k: nat)
    requires k + 2 <= |lines|
    ensures Run(f, lines[k..]) == Run(Step(Step(f, lines[k]), lines[k + 1]), lines[k + 2..])
  {
    assert lines[k..][1..] == lines[k + 1..];
    assert lines[k + 1..][1..] == lines[k + 2..];
  }

  // The parser's steps over the file `create_webapp` writes, two lines at a time, from any state.

  lemma HeaderSteps(f: Fields)
    ensures Step(Step(f, "[Desktop Entry]\n"), KeyValue("Version", "1.0")) == f
  {
    HeaderSkipped();
    VersionSkipped();
  }

  lemma HeaderAt(f: Fields, name: string, url: string, icon: string, category: string, codename: string, command: string)
    ensures var lines := EntryLines(name, url, icon, category, codename, command);
      Step(Step(f, lines[0]), lines[1]) == f
  {
    var lines := EntryLines(name, url, icon, category, codename, command);
    assert lines[0] == "[Desktop Entry]\n" && lines[1] == KeyValue("Version", "1.0");
    HeaderSteps(f);
  }

  lemma NameSteps(f: Fields, name: string)
    requires Writable(name)
    ensures Step(Step(f, KeyValue("Name", name)), KeyValue("Comment", "Web App")) == f.(name := Some(name))
  {
    FieldLineRead(NameLine, name);
    CommentSkipped();
  }

  lemma NameAt(f: Fields, name: string, url: string, icon: string, category: string, codename: string, command: string)
    requires Writable(name)
    ensures var lines := EntryLines(name, url, icon, category, codename, command);
      Step(Step(f, lines[2]), lines[3]) == f.(name := Some(name))
  {
    var lines := EntryLines(name, url, icon, category, codename, command);
    assert lines[2] == KeyValue("Name", name) && lines[3] == KeyValue("Comment", "Web App");
    NameSteps(f, name);
  }

  lemma ExecSteps(f: Fields, command: string)
    requires Classify(Strip(KeyValue("Exec", command))) == ExecLine
    requires Value(ExecLine, Strip(KeyValue("Exec", command))) == command
    ensures Step(Step(f, KeyValue("Exec", command)), KeyValue("Terminal", "false")) == f.(exec := Some(command))
  {
    TerminalSkipped();
  }

  lemma ExecAt(f: Fields, name: string, url: string, icon: string, category: string, codename: string, command: string)
    requires Classify(Strip(KeyValue("Exec", command))) == ExecLine
    requires Value(ExecLine, Strip(KeyValue("Exec", command))) == command
    ensures var lines := EntryLines(name, url, icon, category, codename, command);
      Step(Step(f, lines[4]), lines[5]) == f.(exec := Some(command))
  {
    var lines := EntryLines(name, url, icon, category, codename, command);
    assert lines[4] == KeyValue("Exec", command) && lines[5] == KeyValue("Terminal", "false");
    ExecSteps(f, command);
  }

  lemma BoilerplateSteps(f: Fields)
    ensures Step(Step(f, KeyValue("X-MultipleArgs", "false")), KeyValue("Type", "Application")) == f
  {
    MultipleArgsSkipped();
    TypeSkipped();
  }

  lemma BoilerplateAt(f: Fields, name: string, url: string, icon: string, category: string, codename: string, command: string)
    ensures var lines := EntryLines(name, url, icon, category, codename, command);
      Step(Step(f, lines[6]), lines[7]) == f
  {
    var lines := EntryLines(name, url, icon, category, codename, command);
    assert lines[6] == KeyValue("X-MultipleArgs", "false") && lines[7] == KeyValue("Type", "Application");
    BoilerplateSteps(f);
  }

  lemma IconSteps(f: Fields, icon: string, category: string)
    requires Writable(icon)
    requires '=' !in category && ';' !in category && !EndsWith(category, "GTK")
    ensures Step(Step(f, KeyValue("Icon", icon)), KeyValue("Categories", "GTK;" + category + ";")) == f.(icon := Some(icon), category := Some(category))
  {
    FieldLineRead(IconLine, icon);
    CategoryStep(f.(icon := Some(icon)), category);
  }

  lemma IconAt(f: Fields, name: string, url: string, icon: string, category: string, codename: string, command: string)
    requires Writable(icon)
    requires '=' !in category && ';' !in category && !EndsWith(category, "GTK")
    ensures var lines := EntryLines(name, url, icon, category, codename, command);
      Step(Step(f, lines[8]), lines[9]) == f.(icon := Some(icon), category := Some(category))
  {
    var lines := EntryLines(name, url, icon, category, codename, command);
    assert lines[8] == KeyValue("Icon", icon) && lines[9] == KeyValue("Categories", "GTK;" + category + ";");
    IconSteps(f, icon, category);
  }

  /** The Categories line sets the category to what was written between "GTK;" and ";". */
  lemma CategoryStep(f: Fields, category: string)
    requires '=' !in category && ';' !in category && !EndsWith(category, "GTK")
    ensures Step(f, KeyValue("Categories", "GTK;" + category + ";")) == f.(category := Some(category))
  {
    var w := "GTK;" + category + ";";
    assert '=' !in w && w[|w| - 1] == ';';
    FieldLineRead(CategoryLine, w);
    CategoryRead(category);
  }

  lemma MarkerSteps(f: Fields, codename: string)
    requires codename != [] && IsDigit(codename[|codename| - 1])
    ensures Step(Step(f, KeyValue("MimeType", "text/html;text/xml;application/xhtml_xml;")), KeyValue("StartupWMClass", "WebApp-" + codename)) == f.(isWebapp := true)
  {
    MimeTypeSkipped();
    MarkerLineRead(codename);
  }

  lemma MarkerAt(f: Fields, name: string, url: string, icon: string, category: string, codename: string, command: string)
    requires codename != [] && IsDigit(codename[|codename| - 1])
    ensures var lines := EntryLines(name, url, icon, category, codename, command);
      Step(Step(f, lines[10]), lines[11]) == f.(isWebapp := true)
  {
    var lines := EntryLines(name, url, icon, category, codename, command);
    assert lines[10] == KeyValue("MimeType", "text/html;text/xml;application/xhtml_xml;") && lines[11] == KeyValue("StartupWMClass", "WebApp-" + codename);
    MarkerSteps(f, codename);
  }

  lemma UrlSteps(f: Fields, url: string)
    requires Writable(url)
    ensures Step(Step(f, KeyValue("StartupNotify", "true")), KeyValue("X-WebApp-URL", url)) == f.(url := url)
  {
    StartupNotifySkipped();
    FieldLineRead(UrlLine, url);
  }

  lemma UrlAt(f: Fields, name: string, url: string, icon: string, category: string, codename: string, command: string)
    requires Writable(url)
    ensures var lines := EntryLines(name, url, icon, category, codename, command);
      Step(Step(f, lines[12]), lines[13]) == f.(url := url)
  {
    var lines := EntryLines(name, url, icon, category, codename, command);
    assert lines[12] == KeyValue("StartupNotify", "true") && lines[13] == KeyValue("X-WebApp-URL", url);
    UrlSteps(f, url);
  }

  /** Reading back the file `create_webapp` writes yields exactly the fields it was given. */
  lemma EntryParse(name: string, url: string, icon: string, category: string, codename: string, command: string)
    requires Writable(name) && Writable(icon) && Writable(url)
    requires '=' !in category && ';' !in category && !EndsWith(category, "GTK")
    requires codename != [] && IsDigit(codename[|codename| - 1])
    requires Classify(Strip(KeyValue("Exec", command))) == ExecLine
    requires Value(ExecLine, Strip(KeyValue("Exec", command))) == command
    ensures Parse(EntryLines(name, url, icon, category, codename, command))
         == Fields(true, Some(name), Some(icon), Some(command), Some(category), url)
  {
    EntryRun(Init, name, url, icon, category, codename, command);
  }

  /** The parser's loop over the written lines, from any state, sets every field `create_webapp` wrote. */
  lemma EntryRun(f0: Fields, name: string, url: string, icon: string, category: string, codename: string, command: string)
    requires Writable(name) && Writable(icon) && Writable(url)
    requires '=' !in category && ';' !in category && !EndsWith(category, "GTK")
    requires codename != [] && IsDigit(codename[|codename| - 1])
    requires Classify(Strip(KeyValue("Exec", command))) == ExecLine
    requires Value(ExecLine, Strip(KeyValue("Exec", command))) == command
    ensures Run(f0, EntryLines(name, url, icon, category, codename, command))
         == f0.(isWebapp := true, name := Some(name), icon := Some(icon), exec := Some(command), category := Some(category), url := url)
  {
    var lines := EntryLines(name, url, icon, category, codename, command);
    var f1 := f0.(name := Some(name));
    var f2 := f1.(exec := Some(command));
    var f3 := f2.(icon := Some(icon), category := Some(category));
    var f4 := f3.(isWebapp := true);
    HeaderAt(f0, name, url, icon, category, codename, command);
    NameAt(f0, name, url, icon, category, codename, command);
    ExecAt(f1, name, url, icon, category, codename, command);
    BoilerplateAt(f2, name, url, icon, category, codename, command);
    IconAt(f2, name, url, icon, category, codename, command);
    MarkerAt(f3, name, url, icon, category, codename, command);
    UrlAt(f4, name, url, icon, category, codename, command);
    RunChunks(lines, f0, f0, f1, f2, f2, f3, f4, f4.(url := url));
  }

  /** The parser's loop over fourteen lines, from what each pair of them does. */
  lemma RunChunks(lines: seq<string>, g0: Fields, g1: Fields, g2: Fields, g3: Fields, g4: Fields, g5: Fields, g6: Fields, g7: Fields)
    requires |lines| == 14
    requires Step(Step(g0, lines[0]), lines[1]) == g1
    requires Step(Step(g1, lines[2]), lines[3]) == g2
    requires Step(Step(g2, lines[4]), lines[5]) == g3
    requires Step(Step(g3, lines[6]), lines[7]) == g4
    requires Step(Step(g4, lines[8]), lines[9]) == g5
    requires Step(Step(g5, lines[10]), lines[11]) == g6
    requires Step(Step(g6, lines[12]), lines[13]) == g7
    ensures Run(g0, lines) == g7
  {
    assert lines[0..] == lines;
    RunFrom(g0, lines, 0);
    RunFrom(g1, lines, 2);
    RunFrom(g2, lines, 4);
    RunFrom(g3, lines, 6);
    RunFrom(g4, lines, 8);
    RunFrom(g5, lines, 10);
    RunFrom(g6, lines, 12);
    assert lines[14..] == [];
  }

  /** `get_webapps` accepts the file name `create_webapp` chooses and maps it back to the code name. */
  lemma FileNameRoundTrip(codename: string)
    requires forall k :: 0 <= k < |codename| ==> IsAlpha(codename[k]) || IsDigit(codename[k])
    ensures IsLauncherName(LauncherFileName(codename))
    ensures CodenameOf(LauncherFileName(codename)) == codename
  {
    var fn := LauncherFileName(codename);
    var rest := codename + ".desktop";
    assert fn == "webapp-" + rest;
    assert fn[..|"webapp-"|] == "webapp-";
    assert fn[|fn| - |".desktop"|..] == ".desktop";
    ReplaceLeading(rest, "webapp-", "");
    assert '-' !in rest by {
      forall k | 0 <= k < |rest| ensures rest[k] != '-' {
        if k < |codename| { assert rest[k] == codename[k]; }
      }
    }
    AbsentChar(rest, "webapp-", '-');
    ReplaceAbsent(rest, "webapp-", "");
    assert Replace(fn, "webapp-", "") == rest;
    assert '.' !in codename by {
      forall k | 0 <= k < |codename| ensures codename[k] != '.' { }
    }
    ReplaceSkip(codename, ".desktop", ".desktop", "");
    ReplaceLeading("", ".desktop", "");
    assert ".desktop" + "" == ".desktop";
  }

  /**
   * Create/load round trip: in any directory whose listing holds the file
   * `create_webapp` writes, `get_webapps` lists that launcher under its code
   * name, valid, with the name, icon, command, category and URL it was
   * created with.
   */
  lemma CreatedListed(home: string, name: string, url: string, icon: string, category: string,
                      browser: Browser, digits: string, isolateProfile: bool,
                      listing: seq<string>, dir: map<string, DirEntry>)
    requires |digits| == 4 && forall k :: 0 <= k < |digits| ==> IsDigit(digits[k])
    requires Sound(home, name, url, icon, category, browser, Codename(name, digits))
    requires var codename := Codename(name, digits);
      var command := ExecCommand(home, url, icon, browser, codename, isolateProfile);
      var fn := LauncherFileName(codename);
      fn in listing && fn in dir && dir[fn] == File(Concat(EntryLines(name, url, icon, category, codename, command)))
    ensures var codename := Codename(name, digits);
      var fn := LauncherFileName(codename);
      var command := ExecCommand(home, url, icon, browser, codename, isolateProfile);
      Listed(AppsDir(home) + "/" + fn, codename, Fields(true, Some(name), Some(icon), Some(command), Some(category), url))
        in Webapps(home, listing, dir)
  {
    var codename := Codename(name, digits);
    var fn := LauncherFileName(codename);
    var command := ExecCommand(home, url, icon, browser, codename, isolateProfile);
    var content := Concat(EntryLines(name, url, icon, category, codename, command));
    CodenameShape(name, digits);
    FileNameRoundTrip(codename);
    CreatedParses(home, name, url, icon, category, browser, codename, isolateProfile);
    ListedFile(home, fn, content, dir);
    ListedIn(home, listing, dir, fn);
  }

  /** A valid launcher file under a launcher name contributes exactly itself. */
  lemma ListedFile(home: string, filename: string, content: string, dir: map<string, DirEntry>)
    requires IsLauncherName(filename) && IsValid(Parse(Lines(content)))
    requires filename in dir && dir[filename] == File(content)
    ensures ListedFrom(home, filename, dir)
      == [Listed(AppsDir(home) + "/" + filename, CodenameOf(filename), Parse(Lines(content)))]
  {
  }

  /** Whatever one name of the listing contributes is among the launchers `get_webapps` returns. */
  lemma {:induction false} ListedIn(home: string, listing: seq<string>, dir: map<string, DirEntry>, filename: string)
    requires filename in listing
    ensures forall w :: w in ListedFrom(home, filename, dir) ==> w in Webapps(home, listing, dir)
    decreases |listing|
  {
    var front := listing[..|listing| - 1];
    var last := listing[|listing| - 1];
    assert listing == front + [last];
    if filename != last {
      assert filename in front;
      ListedIn(home, front, dir, filename);
    }
  }

  /** The text `create_webapp` writes, read back line by line, parses to the fields it was given. */
  lemma CreatedParses(home: string, name: string, url: string, icon: string, category: string,
                      browser: Browser, codename: string, isolateProfile: bool)
    requires Sound(home, name, url, icon, category, browser, codename)
    ensures var command := ExecCommand(home, url, icon, browser, codename, isolateProfile);
      Parse(Lines(Concat(EntryLines(name, url, icon, category, codename, command))))
        == Fields(true, Some(name), Some(icon), Some(command), Some(category), url)
  {
    var command := ExecCommand(home, url, icon, browser, codename, isolateProfile);
    assert ExecWritable(home, url, icon, browser, codename);
    ExecLineRead(home, url, icon, browser, codename, isolateProfile);
    EntryParse(name, url, icon, category, codename, command);
    ExecOneLine(home, url, icon, browser, codename, isolateProfile);
    EntryLinesAreLines(name, url, icon, category, codename, command);
    LinesConcat(EntryLines(name, url, icon, category, codename, command));
  }

  /** A key line is one line of the file when neither key nor value holds a line break. */
  lemma KeyValueIsLine(k: string, v: string)
    requires '\n' !in k && '\n' !in v
    ensures IsLine(KeyValue(k, v))
  {
    var line := KeyValue(k, v);
    assert line[..|line| - 1] == k + "=" + v;
  }

  /** The Exec command holds no line break when none of its parts does. */
  lemma ExecOneLine(home: string, url: string, icon: string, browser: Browser, codename: string, isolateProfile: bool)
    requires '\n' !in home && '\n' !in url && '\n' !in icon && '\n' !in browser.execPath && '\n' !in codename
    ensures '\n' !in ExecCommand(home, url, icon, browser, codename, isolateProfile)
  {
    ProfileOneLine(home, browser, codename);
    var profile := ProfilePath(home, browser, codename);
    var x := browser.execPath;
    match browser.kind {
      case Firefox | FirefoxFlatpak =>
        FirefoxOneLine(icon, x, codename, profile, url);
      case Epiphany =>
        EpiphanyOneLine(x, profile, url);
      case Chromium =>
    }
  }

  lemma ProfileOneLine(home: string, browser: Browser, codename: string)
    requires '\n' !in home && '\n' !in codename
    ensures '\n' !in ProfilePath(home, browser, codename)
  {
    assert '\n' !in "/.local/share/ice" && '\n' !in "/profiles" && '\n' !in "/firefox" && '\n' !in "/epiphany";
    assert '\n' !in "/.var/app/org.mozilla.firefox/data/ice/firefox" && '\n' !in "/" && '\n' !in "/epiphany-";
  }

  lemma FirefoxOneLine(icon: string, x: string, codename: string, profile: string, url: string)
    requires '\n' !in icon && '\n' !in x && '\n' !in codename && '\n' !in profile && '\n' !in url
    ensures '\n' !in "sh -c 'FORCE_GTKWINDOW_ICON=" + icon + " " + x + " --class WebApp-" + codename
      + " --profile " + profile + " --no-remote " + url + "'"
  {
  }

  lemma EpiphanyOneLine(x: string, profile: string, url: string)
    requires '\n' !in x && '\n' !in profile && '\n' !in url
    ensures '\n' !in x + " --application-mode " + " --profile=\"" + profile + "\"" + " " + url
  {
  }

  /** Every entry `create_webapp` writes is exactly one line of the file. */
  lemma EntryLinesAreLines(name: string, url: string, icon: string, category: string, codename: string, command: string)
    requires '\n' !in name && '\n' !in url && '\n' !in icon && '\n' !in category && '\n' !in codename && '\n' !in command
    ensures var lines := EntryLines(name, url, icon, category, codename, command);
      forall k :: 0 <= k < |lines| ==> IsLine(lines[k])
  {
    var lines := EntryLines(name, url, icon, category, codename, command);
    forall k | 0 <= k < |lines| ensures IsLine(lines[k]) {
      if k == 0 { assert lines[0][..|lines[0]| - 1] == "[Desktop Entry]"; }
      else if k == 2 { KeyValueIsLine("Name", name); }
      else if k == 4 { KeyValueIsLine("Exec", command); }
      else if k == 8 { KeyValueIsLine("Icon", icon); }
      else if k == 9 { KeyValueIsLine("Categories", "GTK;" + category + ";"); }
      else if k == 11 { KeyValueIsLine("StartupWMClass", "WebApp-" + codename); }
      else if k == 13 { KeyValueIsLine("X-WebApp-URL", url); }
      else if k == 1 { KeyValueIsLine("Version", "1.0"); }
      else if k == 3 { KeyValueIsLine("Comment", "Web App"); }
      else if k == 5 { KeyValueIsLine("Terminal", "false"); }
      else if k == 6 { KeyValueIsLine("X-MultipleArgs", "false"); }
      else if k == 7 { KeyValueIsLine("Type", "Application"); }
      else if k == 10 { KeyValueIsLine("MimeType", "text/html;text/xml;application/xhtml_xml;"); }
      else { KeyValueIsLine("StartupNotify", "true"); }
    }
  }

  // ---------------------------------------------------------------------
  // Editing a launcher: edit_webapp
  // ---------------------------------------------------------------------

  /** An INI file as `configparser` holds it: section → key → value, keys with their case kept. */
  type Config = map<string, map<string, string>>

  const EntrySection: string := "Desktop Entry"

  /**
   * `edit_webapp(path, name, url, icon, category)` on the file's sections.
   * `None` is the error `config.set` raises when there is no [Desktop Entry]
   * section (also when the file is missing). The contract fixes the whole
   * result without mentioning `url`: the argument is ignored.
   */
  function EditWebapp(config: Config, name: string, url: string, icon: string, category: string): (r: Option<Config>)
    ensures r.None? <==> EntrySection !in config
    ensures r.Some? ==>
      && r.value.Keys == config.Keys
      && (forall s :: s in config && s != EntrySection ==> r.value[s] == config[s])
      && r.value[EntrySection].Keys == config[EntrySection].Keys + {"Name", "Icon", "Comment", "Categories"}
      && r.value[EntrySection]["Name"] == name
      && r.value[EntrySection]["Icon"] == icon
      && r.value[EntrySection]["Comment"] == "Web App"
      && r.value[EntrySection]["Categories"] == "GTK;" + category + ";"
      && (forall k :: k in config[EntrySection] && k != "Name" && k != "Icon" && k != "Comment" && k != "Categories"
            ==> r.value[EntrySection][k] == config[EntrySection][k])
  {
    if EntrySection !in config then None
    else
      var entry := config[EntrySection]["Name" := name]["Icon" := icon]["Comment" := "Web App"]
        ["Categories" := "GTK;" + category + ";"];
      Some(config[EntrySection := entry])
  }

  /** Editing twice with the same values leaves what the first edit wrote. */
  lemma EditIdempotent(config: Config, name: string, url: string, icon: string, category: string)
    requires EntrySection in config
    ensures EditWebapp(EditWebapp(config, name, url, icon, category).value, name, url, icon, category)
         == EditWebapp(config, name, url, icon, category)
  {
    var once := EditWebapp(config, name, url, icon, category).value;
    var twice := EditWebapp(once, name, url, icon, category).value;
    assert twice[EntrySection] == once[EntrySection];
    assert twice == once;
  }
}

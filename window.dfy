/**
 * The decisions the editor window takes from its entries (main.py): the URL it
 * reads, when its buttons are enabled, which themed icon it guesses for a URL
 * and where a downloaded icon is kept once the launcher is saved. The widgets
 * themselves are left out; each decision is a function of what the widgets hold.
 */
module Window {
  import opened Wrappers
  import opened Strings
  import opened DesktopEntries

  // ---------------------------------------------------------------------
  // get_url
  // ---------------------------------------------------------------------

  /** The entry text holds something besides white space. */
  predicate Filled(text: string)
  {
    exists k :: 0 <= k < |text| && !IsSpace(text[k])
  }

  /**
   * `get_url()`: the stripped entry text, with "http://" in front when it
   * holds no "://"; empty exactly when the text is blank.
   */
  function GetUrl(text: string): (url: string)
    ensures url == [] <==> !Filled(text)
    ensures url != [] ==> Trimmed(url) && Contains(url, "://")
    ensures url != [] ==> EndsWith(url, Strip(text))
    ensures Contains(Strip(text), "://") ==> url == Strip(text)
    ensures Filled(text) && !Contains(Strip(text), "://") ==> url == "http://" + Strip(text)
  {
    var s := Strip(text);
    if s == "" then ""
    else if !Contains(s, "://") then
      var url := "http://" + s;
      assert url[4..4 + |"://"|] == "://";
      assert Occurs(url, "://", 4);
      assert url[|url| - |s|..] == s;
      url
    else s
  }

  /** Reading back what `get_url` returned changes nothing. */
  lemma GetUrlIdempotent(text: string)
    ensures GetUrl(GetUrl(text)) == GetUrl(text)
  {
    var url := GetUrl(text);
    if url != [] {
      assert Strip(url) == url;
      assert !IsSpace(url[0]);
    }
  }

  // ---------------------------------------------------------------------
  // Button sensitivity: toggle_ok_sensitivity and on_url_entry
  // ---------------------------------------------------------------------

  /** `toggle_ok_sensitivity`: the OK button is off when the name or the URL is empty. */
  function OkButtonEnabled(name: string, urlText: string): (enabled: bool)
    ensures enabled <==> name != [] && Filled(urlText)
  {
    !(name == "" || GetUrl(urlText) == "")
  }

  /** `on_url_entry`: the favicon button is on exactly when there is a URL. */
  function FaviconButtonEnabled(urlText: string): (enabled: bool)
    ensures enabled <==> Filled(urlText)
  {
    GetUrl(urlText) != ""
  }

  // ---------------------------------------------------------------------
  // guess_icon
  // ---------------------------------------------------------------------

  /** What the domain splitter finds in the lower-cased URL. */
  datatype Extracted = Extracted(domain: string, subdomain: string)

  /** The themed icon name `guess_icon` prefers for Google services. */
  function PreferredIcon(info: Extracted): (icon: Option<string>)
    ensures icon.Some? <==> (info.domain == "google" && info.subdomain != []) || info.domain == "gmail" || info.domain == "youtube"
    ensures icon.Some? ==> StartsWith(icon.value, "web-google-")
    ensures info.domain == "google" && info.subdomain != [] && info.subdomain != "mail" ==> icon == Some("web-google-" + info.subdomain)
    ensures (info.domain == "google" && info.subdomain == "mail") || info.domain == "gmail" ==> icon == Some("web-google-gmail")
    ensures info.domain == "youtube" ==> icon == Some("web-google-youtube")
  {
    if info.domain == "google" && info.subdomain != "" then
      assert "web-" + info.domain + "-gmail" == "web-google" + "-gmail" == "web-google-gmail";
      if info.subdomain == "mail" then Some("web-" + info.domain + "-gmail")
      else Some("web-" + info.domain + "-" + info.subdomain)
    else if info.domain == "gmail" then Some("web-google-gmail")
    else if info.domain == "youtube" then Some("web-google-youtube")
    else None
  }

  /** The names `guess_icon` tries, best first. */
  function Candidates(info: Extracted): (names: seq<string>)
    ensures |names| >= 2 && names[|names| - 1] == info.domain && names[|names| - 2] == "web-" + info.domain
  {
    (if PreferredIcon(info).Some? then [PreferredIcon(info).value] else []) + ["web-" + info.domain, info.domain]
  }

  /** The first of `names` the theme has. */
  function FirstIn(names: seq<string>, theme: set<string>): (found: Option<string>)
    ensures found.Some? ==> found.value in theme && found.value in names
    ensures found.None? <==> forall k :: 0 <= k < |names| ==> names[k] !in theme
    ensures found.Some? ==> exists k :: 0 <= k < |names| && names[k] == found.value
                                  && (forall m :: 0 <= m < k ==> names[m] !in theme)
  {
    if names == [] then None
    else if names[0] in theme then
      assert names[0] == names[0];
      Some(names[0])
    else
      var rest := FirstIn(names[1..], theme);
      if rest.Some? then
        var k :| 0 <= k < |names[1..]| && names[1..][k] == rest.value
          && forall m :: 0 <= m < k ==> names[1..][m] !in theme;
        assert names[k + 1] == rest.value;
        assert forall m :: 0 <= m < k + 1 ==> names[m] !in theme by {
          forall m | 0 <= m < k + 1 ensures names[m] !in theme {
            if m > 0 { assert names[m] == names[1..][m - 1]; }
          }
        }
        rest
      else
        assert forall k :: 0 <= k < |names| ==> names[k] !in theme by {
          forall k | 0 <= k < |names| ensures names[k] !in theme {
            if k > 0 { assert names[k] == names[1..][k - 1]; }
          }
        }
        None
  }

  /**
   * `guess_icon()`: the name the icon chooser shows afterwards. `extract`
   * stands for the domain splitter and `theme` for the names the icon theme has;
   * `current` is the chooser's name before the call.
   */
  function GuessIcon(urlText: string, extract: string -> Extracted, theme: set<string>, current: string): (icon: string)
    ensures icon == current || icon in theme
    ensures !Filled(urlText) ==> icon == current
  {
    var url := LowerAscii(GetUrl(urlText));
    if url == "" then current
    else
      var info := extract(url);
      if info.domain == "" then current
      else
        var preferred := PreferredIcon(info);
        if preferred.Some? && preferred.value in theme then preferred.value
        else if "web-" + info.domain in theme then "web-" + info.domain
        else if info.domain in theme then info.domain
        else current
  }

  /**
   * The guess is the first candidate the theme has: the preferred name, then
   * "web-<domain>", then the bare domain; with none of them, or an empty
   * domain, the chooser keeps its name.
   */
  lemma GuessIconFirst(urlText: string, extract: string -> Extracted, theme: set<string>, current: string)
    requires Filled(urlText)
    ensures var info := extract(LowerAscii(GetUrl(urlText)));
      GuessIcon(urlText, extract, theme, current)
        == if info.domain == [] then current
           else match FirstIn(Candidates(info), theme) case Some(name) => name case None => current
  {
    var info := extract(LowerAscii(GetUrl(urlText)));
    var names := Candidates(info);
    if info.domain != [] {
      if PreferredIcon(info).Some? {
        assert names == [PreferredIcon(info).value, "web-" + info.domain, info.domain];
        assert names[1..] == ["web-" + info.domain, info.domain];
        assert names[1..][1..] == [info.domain];
      } else {
        assert names == ["web-" + info.domain, info.domain];
        assert names[1..] == [info.domain];
      }
    }
  }

  // ---------------------------------------------------------------------
  // Saving: the icon kept by on_ok_button
  // ---------------------------------------------------------------------

  /** The icon file kept for a launcher named `name`: its letters with ".png", in the icons directory. */
  function KeptIcon(home: string, name: string): string
  {
    IconsDir(home) + "/" + Letters(name) + ".png"
  }

  /**
   * `on_ok_button` as written: an icon whose path contains "/tmp" anywhere is
   * copied to the kept icon file, which then becomes the icon.
   */
  function SavedIconAsWritten(home: string, name: string, icon: string): (saved: string)
    ensures saved == icon || saved == KeptIcon(home, name)
    ensures saved != icon ==> Contains(icon, "/tmp")
    ensures Contains(icon, "/tmp") ==> saved == KeptIcon(home, name)
  {
    if Contains(icon, "/tmp") then KeptIcon(home, name) else icon
  }

  /**
   * A launcher whose name starts with "tmp" keeps its icon at a path that
   * itself contains "/tmp": saving it again copies that file onto itself,
   * which the copy refuses.
   */
  lemma TmpNameRecopies(home: string, name: string, icon: string)
    requires StartsWith(Letters(name), "tmp") && Contains(icon, "/tmp")
    ensures var kept := SavedIconAsWritten(home, name, icon);
      kept == KeptIcon(home, name) && Contains(kept, "/tmp") && SavedIconAsWritten(home, name, kept) == kept
  {
    var dir := IconsDir(home);
    var letters := Letters(name);
    var kept := KeptIcon(home, name);
    assert kept == dir + ("/" + letters + ".png");
    assert kept[|dir|..|dir| + 4] == "/" + letters[..3];
    assert Occurs(kept, "/tmp", |dir|);
  }

  /** A name that shows it: "tmpmail" with a downloaded icon. */
  lemma TmpMailRecopies(home: string)
    ensures var kept := SavedIconAsWritten(home, "tmpmail", "/tmp/a.png");
      kept != "/tmp/a.png" && SavedIconAsWritten(home, "tmpmail", kept) == kept
  {
    TmpMailLetters();
    assert Occurs("/tmp/a.png", "/tmp", 0);
    TmpNameRecopies(home, "tmpmail", "/tmp/a.png");
  }

  lemma TmpMailLetters()
    ensures StartsWith(Letters("tmpmail"), "tmp")
  {
    assert forall k :: 0 <= k < |"tmpmail"| ==> IsAlpha("tmpmail"[k]);
  }

  /**
   * The icon kept on save: only a file of the temporary directory (where
   * downloaded favicons are written) is copied to the kept icon file.
   */
  function SavedIcon(home: string, name: string, icon: string): (saved: string)
    ensures saved == icon || saved == KeptIcon(home, name)
    ensures saved != icon ==> StartsWith(icon, "/tmp/")
    ensures StartsWith(icon, "/tmp/") ==> saved == KeptIcon(home, name)
  {
    if StartsWith(icon, "/tmp/") then KeptIcon(home, name) else icon
  }

  /** The kept icon file is not temporary unless the home directory is. */
  lemma KeptNotTemporary(home: string, name: string)
    requires !StartsWith(home + "/", "/tmp/")
    ensures !StartsWith(KeptIcon(home, name), "/tmp/")
  {
    var prefix := home + "/";
    var rest := ".local/share/ice/icons/" + Letters(name) + ".png";
    assert KeptIcon(home, name) == prefix + rest;
    assert rest[0] == '.';
    PrefixNotTemporary(prefix, rest);
  }

  lemma PrefixNotTemporary(prefix: string, rest: string)
    requires !StartsWith(prefix, "/tmp/") && rest != [] && rest[0] == '.'
    ensures !StartsWith(prefix + rest, "/tmp/")
  {
    var s := prefix + rest;
    if |prefix| >= 5 {
      assert s[..5] == prefix[..5];
    } else if |s| >= 5 {
      assert s[|prefix|] == '.';
      assert s[..5][|prefix|] == '.';
    }
  }

  /**
   * Once saved, the icon is no longer temporary: saving again, under any name,
   * keeps it and copies nothing, unless the home directory is itself temporary.
   */
  lemma SavedIconSettles(home: string, name: string, other: string, icon: string)
    requires !StartsWith(home + "/", "/tmp/")
    ensures !StartsWith(SavedIcon(home, name, icon), "/tmp/")
    ensures SavedIcon(home, other, SavedIcon(home, name, icon)) == SavedIcon(home, name, icon)
  {
    KeptNotTemporary(home, name);
  }

  /** What `on_ok_button` asks of the manager. */
  datatype Request =
    | Edit(path: string, name: string, url: string, icon: string, category: string)
    | Create(name: string, url: string, icon: string, category: string, browser: Browser)

  /**
   * What `on_ok_button` ends with: the request it sends, with the copy of the
   * icon it made first, if any; or the error `shutil.copyfile` raises when it
   * is asked to copy a file onto itself, after which nothing is sent.
   */
  datatype Outcome =
    | Sent(copy: Option<(string, string)>, request: Request)
    | SameFile(path: string)

  /**
   * The save step under a given copy rule: when `moved` holds, the icon is
   * copied to the kept icon file first, which fails when that file is the
   * icon itself.
   */
  function SaveWith(moved: bool, home: string, editMode: bool, selectedPath: string, name: string, urlText: string,
                    icon: string, category: string, browser: Browser): Outcome
  {
    var kept := KeptIcon(home, name);
    if moved && kept == icon then SameFile(icon)
    else
      var url := GetUrl(urlText);
      var saved := if moved then kept else icon;
      var copy := if moved then Some((icon, kept)) else None;
      if editMode then Sent(copy, Edit(selectedPath, name, url, saved, category))
      else Sent(copy, Create(name, url, saved, category, browser))
  }

  /** `on_ok_button` as written: any icon whose path contains "/tmp" is copied. */
  function OkButton(home: string, editMode: bool, selectedPath: string, name: string, urlText: string,
                    icon: string, category: string, browser: Browser): (r: Outcome)
    ensures r.SameFile? <==> Contains(icon, "/tmp") && icon == KeptIcon(home, name)
    ensures r.SameFile? ==> r.path == icon
    ensures r.Sent? ==> (r.request.Edit? <==> editMode)
    ensures r.Sent? ==> r.request.url == GetUrl(urlText) && r.request.name == name && r.request.category == category
    ensures r.Sent? && r.request.Edit? ==> r.request.path == selectedPath
    ensures r.Sent? && r.request.Create? ==> r.request.browser == browser
    ensures r.Sent? ==> r.request.icon == SavedIconAsWritten(home, name, icon)
    ensures r.Sent? ==> (r.copy.Some? <==> Contains(icon, "/tmp"))
    ensures r.Sent? && r.copy.Some? ==> r.copy.value == (icon, KeptIcon(home, name))
  {
    SaveWith(Contains(icon, "/tmp"), home, editMode, selectedPath, name, urlText, icon, category, browser)
  }

  /**
   * Saving "tmpmail" with a downloaded icon goes through, but editing it
   * afterwards, with the icon it was given, fails before anything is sent.
   */
  lemma TmpMailEditFails(home: string, urlText: string, category: string, browser: Browser, path: string)
    ensures var first := OkButton(home, false, "", "tmpmail", urlText, "/tmp/a.png", category, browser);
      first.Sent? && first.request.icon == KeptIcon(home, "tmpmail")
      && OkButton(home, true, path, "tmpmail", urlText, first.request.icon, category, browser) == SameFile(KeptIcon(home, "tmpmail"))
  {
    TmpMailRecopies(home);
    TmpMailLetters();
    TmpNameRecopies(home, "tmpmail", "/tmp/a.png");
  }

  /** `on_ok_button` with the corrected rule: only an icon under "/tmp/" is copied. */
  function OkButtonCorrected(home: string, editMode: bool, selectedPath: string, name: string, urlText: string,
                             icon: string, category: string, browser: Browser): (r: Outcome)
    ensures r.SameFile? <==> StartsWith(icon, "/tmp/") && icon == KeptIcon(home, name)
    ensures r.SameFile? ==> r.path == icon
    ensures r.Sent? ==> (r.request.Edit? <==> editMode)
    ensures r.Sent? ==> r.request.url == GetUrl(urlText) && r.request.name == name && r.request.category == category
    ensures r.Sent? && r.request.Edit? ==> r.request.path == selectedPath
    ensures r.Sent? && r.request.Create? ==> r.request.browser == browser
    ensures r.Sent? ==> r.request.icon == SavedIcon(home, name, icon)
    ensures r.Sent? ==> (r.copy.Some? <==> StartsWith(icon, "/tmp/"))
    ensures r.Sent? && r.copy.Some? ==> r.copy.value == (icon, KeptIcon(home, name))
  {
    SaveWith(StartsWith(icon, "/tmp/"), home, editMode, selectedPath, name, urlText, icon, category, browser)
  }

  /**
   * Under the corrected rule a save never fails unless the home directory is
   * itself temporary, and saving again with the icon it sent, under any
   * name, copies nothing.
   */
  lemma OkButtonCorrectedSettles(home: string, editMode: bool, selectedPath: string, name: string, urlText: string,
                                 icon: string, category: string, browser: Browser,
                                 again: bool, otherPath: string, other: string, otherUrl: string, otherCategory: string)
    requires !StartsWith(home + "/", "/tmp/")
    ensures var r := OkButtonCorrected(home, editMode, selectedPath, name, urlText, icon, category, browser);
      r.Sent? &&
      var r2 := OkButtonCorrected(home, again, otherPath, other, otherUrl, r.request.icon, otherCategory, browser);
      r2.Sent? && r2.copy == None && r2.request.icon == r.request.icon
  {
    KeptNotTemporary(home, name);
    SavedIconSettles(home, name, other, icon);
  }
}

# quickly-web-manager core, modelled in Dafny

This project is a Dafny model of the logic that quickly-web-manager runs beneath its GTK window. It has three parts.

- **Favicon discovery** (`usr/lib/web-manager/common.py`) is modelled in module `Urls` and module `Favicons`:
  - `normalize_url`, with a simplified URL splitter;
  - `download_image`, which resolves an href against the site root and caps the picture's height;
  - `download_favicon`, which first asks the favicongrabber.com API, then falls back to the page's own `<link>` icons, `/favicon.ico` and `og:image`, and returns the images sorted stably by decreasing height.
  The network, the HTML, JSON decoding and image decoding are inputs (`Favicons.Net`). A Python exception inside a `try` block is the `Raised` stage. That stage keeps whatever was appended before the raise.
- **Launcher files** (`common.py`) are modelled in module `DesktopEntries`:
  - `WebAppLauncher` parses a desktop entry line by line. It is the class `DesktopEntries.Launcher`, whose constructor runs the same loop over the file's lines.
  - `get_webapps` lists the valid launchers of the applications directory.
  - `create_webapp` writes a launcher file. The four random digits are a parameter.
  - `edit_webapp` rewrites four keys of the `[Desktop Entry]` section.
  Files are sequences of lines, and a directory is a map from names to entries. The central result is the create/load round trip: what `create_webapp` writes, `get_webapps` lists back under the same code name, with the same name, icon, command, category and URL. The files use keys of section 6 (Recognized desktop entry keys) of the freedesktop.org Desktop Entry Specification, plus two extension keys with the X- prefix that the specification reserves for extensions: `X-MultipleArgs` and `X-WebApp-URL`.
- **Editor window decisions** (`usr/lib/web-manager/main.py`) are modelled in module `Window`:
  - `get_url`;
  - when the OK and favicon buttons are enabled;
  - which themed icon `guess_icon` picks;
  - where `on_ok_button` keeps a downloaded icon, which request it sends, and when the copy of the icon fails first.
  Each is a function of what the widgets hold.

`Strings` models the Python string operations the code relies on: `strip`, `in`, `replace`, `startswith`/`endswith`, `filter(str.isalpha, …)` and iteration over the lines of a file. `Wrappers` holds `Option`.

The model follows the code in these places:
- The HTML fallback of `download_favicon` runs only when the grabber block raises. A grabber reply other than 200, or a 200 reply whose icons all fail to download, ends the search with whatever the grabber found, possibly nothing.
- `msapplication-TileImage` is looked up as a `<link rel=…>` and read through its `href`, like the other three relations. It is not read from a `<meta>` tag.
- The height cap squares the picture to 256×256. A picture at most 256 high keeps its width, so the width of a returned image is not bounded.

## Model

| member | source | states |
|---|---|---|
| Urls.Split | usr/lib/web-manager/common.py:235 | The scheme is the URL's own lower-cased scheme when it has one, otherwise the default. The host holds no '/', '?' or '#'. The path holds no '?' or '#', starts with '/' when there is a host, and carries no ";params" for schemes that use them. |
| Urls.SplitReassembles | usr/lib/web-manager/common.py:235 | The six parts give back the URL: its scheme as written followed by ':', then "//" and the host, the path, ";params", "?query" and "#fragment", each separator present exactly where its part was cut. The scheme reported is the lower-cased form of the one written. |
| Urls.SplitNetlocCuts | usr/lib/web-manager/common.py:235 | After the scheme, "//" and the host followed by the rest give back the text; without a leading "//" the host is empty and nothing is cut. |
| Urls.SplitPathParts | usr/lib/web-manager/common.py:235 | After the host, the path, ";params", "?query" and "#fragment" give back the text, and a part whose separator is absent is empty. |
| Urls.QueryParts | usr/lib/web-manager/common.py:235 | The text before '#' reads back as the path, ";params" and "?query", each separator present exactly where its part was cut. |
| Urls.PathParams | usr/lib/web-manager/common.py:235 | For the schemes that use params, the path that remains holds none. The path is only cut, never rewritten, so it begins as the text did. |
| Urls.PathParamsCuts | usr/lib/web-manager/common.py:235 | The params step either leaves the path whole with no params, or cuts it at a ';' into path and params, the params holding no '/'. |
| Urls.SplitParams | usr/lib/web-manager/common.py:235 | What remains of the path carries no ";params", and a path without them is left whole. |
| Urls.SplitParamsCuts | usr/lib/web-manager/common.py:235 | Splitting off params either changes nothing, or cuts the path at a ';' so that path + ";" + params gives back the input, the params holding no '/'. |
| Urls.SplitScheme_Valid | usr/lib/web-manager/common.py:235 | The scheme `urlparse` reports is always a valid lower-case scheme when the default is one. |
| Urls.Normalize | usr/lib/web-manager/common.py:234-238 | `normalize_url`: split, move a host-less path into the host's place, and render scheme://host/path. The four lemmas below and `NormalizeIdempotent` state what it promises. |
| Urls.NormalizeDefaultScheme | usr/lib/web-manager/common.py:234-238 | A URL without a scheme of its own comes out as an "http://" URL. |
| Urls.NormalizeDropsQueryAndFragment | usr/lib/web-manager/common.py:234-238 | The normalised URL contains no '?' and no '#': params, query and fragment are dropped. |
| Urls.NormalizeMovesPathToHost | usr/lib/web-manager/common.py:236-237 | When the URL has no host but a non-empty path, the result is scheme + "://" + path: the path takes the host's place. |
| Urls.NormalizeRendered | usr/lib/web-manager/common.py:238 | A URL already of the form scheme://host/path is returned unchanged. |
| Urls.NormalizeIdempotent | usr/lib/web-manager/common.py:234-238 | Normalising a normalised URL changes nothing. |
| Favicons.ResolveHrefRelative | usr/lib/web-manager/common.py:242-246 | A link without "://" lands under the root joined by exactly one '/': a leading '/' of the link is used as the joint and is not doubled. |
| Favicons.ResolveHrefAbsolute | usr/lib/web-manager/common.py:242-246 | A link containing "://" is used unchanged. Against an absolute root, every link resolves to an absolute URL. |
| Favicons.SchemeRelativeHref | usr/lib/web-manager/common.py:242-244 | A scheme-relative link "//cdn/x" is not treated as absolute and becomes root + "//cdn/x". |
| Favicons.Resize | usr/lib/web-manager/common.py:250-251 | The height is at most 256. A picture taller than 256 becomes exactly 256×256, and any other picture is kept unchanged, including a width over 256. |
| Favicons.DownloadImage | usr/lib/web-manager/common.py:240-256 | The result is an image exactly when the resolved URL fetches and decodes, and it is then that picture resized. Any failure gives None. |
| Favicons.Grab | usr/lib/web-manager/common.py:266-281 | The grabber block as a stage: the entries it appended and whether it completed or raised. `GrabberRefusal`, `GrabberCompletes`, `GrabberRaises` and `GrabberMissingSrc` state what it gives. |
| Favicons.Fallback | usr/lib/web-manager/common.py:284-317 | The HTML fallback block over what the grabber left. `FallbackGrows`, `PageUnreachable`, `MissingHref` and `FullFallback` state what it gives. |
| Favicons.Collected | usr/lib/web-manager/common.py:260-317 | The list `download_favicon` holds before its final sort: the grabber's entries, then the fallback's when the grabber block raised. `CollectedNumbered` states what it holds. |
| Favicons.Favicons | usr/lib/web-manager/common.py:319-320 | What `download_favicon` returns is a permutation of the collected entries, in non-increasing height. |
| Favicons.SortByHeight | usr/lib/web-manager/common.py:319 | The result is a permutation of the collected entries with heights in non-increasing order. |
| Favicons.InsertPermutes | usr/lib/web-manager/common.py:319 | Inserting one entry adds exactly that entry to the multiset. |
| Favicons.InsertDescending | usr/lib/web-manager/common.py:319 | Insertion keeps a list ordered by non-increasing height. |
| Favicons.SortStable | usr/lib/web-manager/common.py:278 | For every height, the entries of that height keep their discovery order: the sort is stable even though it is reversed. |
| Favicons.GrabberRefusal | usr/lib/web-manager/common.py:268-279 | A grabber reply other than 200 returns an empty list, and the fallback never runs. |
| Favicons.GrabberCompletes | usr/lib/web-manager/common.py:267-279 | When the grabber block completes, every returned entry is labelled "Favicon Grabber", and the result does not depend on the page at all. |
| Favicons.GrabIconsGrows | usr/lib/web-manager/common.py:272-277 | The grabber loop only appends, each entry gets a fresh temporary file, and each entry is labelled "Favicon Grabber". |
| Favicons.GrabberRaises | usr/lib/web-manager/common.py:280-317 | After the grabber block raises, what it had already appended stays in front. The fallback appends after it, with each of its six labels at most once and in order. |
| Favicons.GrabIconsStops | usr/lib/web-manager/common.py:272-277 | An icon without "src" raises at that icon, and the raised stage holds exactly what the icons before it appended. |
| Favicons.GrabberMissingSrc | usr/lib/web-manager/common.py:266-317 | When the grabber's reply lists an icon without "src", the grabber stage raises with exactly the entries of the icons before it. The fallback keeps those in front and appends only its own sources after them. |
| Favicons.PageUnreachable | usr/lib/web-manager/common.py:284-285 | When the page cannot be fetched, nothing is added to what the grabber left. |
| Favicons.LinkIconsGrows | usr/lib/web-manager/common.py:291-298 | The `<link>` loop appends at most one entry per relation, in relation order, to what it was given. |
| Favicons.LinkIconsStops | usr/lib/web-manager/common.py:292-294 | A `<link>` without href raises at that relation. Entries from earlier relations are kept, and none from later relations are added. |
| Favicons.LinkIconsCut | usr/lib/web-manager/common.py:291-294 | A `<link>` without href at relation k raises with exactly what the relations before k appended. |
| Favicons.MissingHref | usr/lib/web-manager/common.py:291-317 | A `<link>` without href skips the remaining sources, /favicon.ico and og:image included. What `download_favicon` collects is then exactly the grabber's entries followed by what the relations before it appended. |
| Favicons.LinkIconsAll | usr/lib/web-manager/common.py:291-298 | When every relation's `<link>` serves an image, the loop appends exactly one entry per relation, in order. |
| Favicons.ExtrasGrows | usr/lib/web-manager/common.py:301-314 | After the links come at most a "favicon" entry and then an "og:image" entry, in that order. |
| Favicons.FallbackGrows | usr/lib/web-manager/common.py:284-317 | The fallback keeps what it was given and appends each of its six sources at most once, in order. |
| Favicons.FullFallback | usr/lib/web-manager/common.py:284-317 | When the grabber raised and the page serves every source, the labels appended are exactly apple-touch-icon, shortcut icon, icon, msapplication-TileImage, favicon and og:image, in that order. |
| Favicons.CollectedNumbered | usr/lib/web-manager/common.py:275-313 | Every collected entry was saved to a temporary file of its own, numbered in discovery order, and is at most 256 pixels high. |
| Favicons.FaviconsHeightBound | usr/lib/web-manager/common.py:250-251 | No image returned by `download_favicon` is taller than 256 pixels. |
| Favicons.KeywordsRanked | usr/lib/web-manager/common.py:291 | The four `<link>` relations come first among the fallback's labels, in the order they are tried. |
| Favicons.TryGrabber | usr/lib/web-manager/common.py:266-281 | The loop over the grabber's icons computes exactly the grabber stage: the entries appended and whether the block raised. |
| Favicons.ScanLinks | usr/lib/web-manager/common.py:291-298 | The loop over the four relations computes exactly the `<link>` stage: the entries appended and whether it raised. |
| Favicons.TryPage | usr/lib/web-manager/common.py:284-317 | The fallback block returns exactly the fallback stage's list. |
| Favicons.DownloadFavicon | usr/lib/web-manager/common.py:260-320 | `download_favicon` returns exactly the sorted collected entries of which the lemmas above speak. |
| DesktopEntries.Classify | usr/lib/web-manager/common.py:72-95 | Which branch of the loop a stripped line takes: a marker first, then Name=, Icon=, Exec=, Categories= and X-WebApp-URL=, each tested with `in`. `RunMarker`, `SetIff`, `OtherLine` and `NoKeyOther` state what it decides. |
| DesktopEntries.Step | usr/lib/web-manager/common.py:69-95 | One pass of the loop body: strip the line, then set the flag or the one field its branch names. `LastWins` and `Unset` state its effect over a file. |
| DesktopEntries.Parse | usr/lib/web-manager/common.py:59-95 | The loop over every line, from the initial values. `LastWins`, `Unset`, `RunMarker`, `SetIff` and `EntryParse` state what it yields. |
| DesktopEntries.IsValid | usr/lib/web-manager/common.py:96-97 | `is_valid`: a marker was seen and both a name and an icon were set (`ValidIff`). |
| DesktopEntries.Launcher.constructor | usr/lib/web-manager/common.py:57-98 | The object holds the path, the code name and the fields the line-by-line parse yields. It is valid exactly when that parse is. |
| DesktopEntries.LastWins | usr/lib/web-manager/common.py:69-95 | A field holds the value of the last line of its kind: later lines overwrite earlier ones. |
| DesktopEntries.Unset | usr/lib/web-manager/common.py:60-65 | A field that no line sets keeps its initial value (None, or "" for the URL). |
| DesktopEntries.RunMarker | usr/lib/web-manager/common.py:73-75 | The web-app flag is set exactly when some stripped line holds one of the three StartupWMClass markers. |
| DesktopEntries.SetIff | usr/lib/web-manager/common.py:77-91 | Name, icon, exec and category end up set exactly when some line of their kind was seen. |
| DesktopEntries.ValidIff | usr/lib/web-manager/common.py:97-98 | `is_valid` holds exactly when a marker line, a Name line and an Icon line were all seen. |
| DesktopEntries.CategoryClean | usr/lib/web-manager/common.py:89-90 | The category read back never holds a ';': "GTK;" and every ';' are removed. |
| DesktopEntries.CategoryRead | usr/lib/web-manager/common.py:90 | A category written as "GTK;c;" is read back as c, provided c holds no ';' and does not end in "GTK". |
| DesktopEntries.FieldLineRead | usr/lib/web-manager/common.py:77-95 | For a value with no '=' that does not end in white space, the Name, Icon, Categories and X-WebApp-URL lines as written are recognised as their own kind, and stripping the key gives back the value. |
| DesktopEntries.MarkerLineRead | usr/lib/web-manager/common.py:203 | The written line StartupWMClass=WebApp-codename marks the launcher as a web app. |
| DesktopEntries.ExecLineRead | usr/lib/web-manager/common.py:165-195 | The Exec line written for every browser family is read back as the command written. |
| DesktopEntries.OtherLine | usr/lib/web-manager/common.py:160-204 | A key line whose key ends with none of the parser's keys is skipped. This covers Comment, Terminal, X-MultipleArgs, Type, MimeType, StartupNotify and Version. |
| DesktopEntries.NoKeyOther | usr/lib/web-manager/common.py:73-95 | A line without '=' never sets anything, for example the [Desktop Entry] header. |
| DesktopEntries.Webapps | usr/lib/web-manager/common.py:110-125 | The launchers `get_webapps` lists: one per valid webapp-*.desktop file of the listing, in listing order. `WebappsAreValid`, `WebappsBound`, `ListedIn` and `GetWebapps` state what it holds. |
| DesktopEntries.WebappsBound | usr/lib/web-manager/common.py:112-120 | At most one launcher is listed per name of the directory listing. |
| DesktopEntries.ListedIn | usr/lib/web-manager/common.py:112-120 | Whatever one name of the listing contributes is among the listed launchers, wherever that name stands in the listing. |
| DesktopEntries.ListedFile | usr/lib/web-manager/common.py:113-120 | A webapp-*.desktop file whose lines parse as valid contributes exactly one launcher, with its path, its code name and that parse. |
| DesktopEntries.WebappsAreValid | usr/lib/web-manager/common.py:110-125 | Only valid launchers are listed, each from a file named webapp-*.desktop with the path and code name taken from that name. |
| DesktopEntries.GetWebapps | usr/lib/web-manager/common.py:110-125 | The loop returns, in listing order, one valid Launcher object per valid launcher file, each showing that file's parse. |
| DesktopEntries.CodenameShape | usr/lib/web-manager/common.py:155-156 | The code name is letters followed by the four digits, ends in a digit and holds no '=' or line break. |
| DesktopEntries.FileNameRoundTrip | usr/lib/web-manager/common.py:113-115 | The file name "webapp-codename.desktop" passes the filter of `get_webapps`, which maps it back to exactly that code name. |
| DesktopEntries.ExecCommand | usr/lib/web-manager/common.py:165-195 | The Exec command for each browser family. `ExecLineRead` states that the parser reads it back whole, and `WriteExec` that it is what is written. |
| DesktopEntries.EntryLines | usr/lib/web-manager/common.py:159-205 | The fourteen lines `create_webapp` writes, in order. `EntryLinesAreLines`, `EntryParse` and `CreatedParses` state how they read back. |
| DesktopEntries.WriteExec | usr/lib/web-manager/common.py:165-195 | The Exec command written for each browser family (Firefox, Firefox Flatpak, Epiphany, Chromium with or without its own profile) is the one `ExecCommand` describes, which `ExecLineRead` reads back. |
| DesktopEntries.WriteLines | usr/lib/web-manager/common.py:159-205 | The file gets the fourteen lines of `EntryLines`, in order, each a single line (`EntryLinesAreLines`). |
| DesktopEntries.EntryLinesAreLines | usr/lib/web-manager/common.py:160-205 | Every write is exactly one line of the file when no value holds a line break. |
| DesktopEntries.CreateWebapp | usr/lib/web-manager/common.py:153-212 | Fixes where the launcher is written, whether it ends up a symbolic link into an Epiphany profile, which profile directory is created for each browser family, and the text written. |
| DesktopEntries.EntryParse | usr/lib/web-manager/common.py:67-98 | For a name, icon, URL and category with no '=' (the category also without ';' and not ending in "GTK") and a command the parser reads back whole, parsing the written lines yields a valid launcher with exactly the name, icon, command, category and URL that were written. |
| DesktopEntries.CreatedParses | usr/lib/web-manager/common.py:159-205 | For values that satisfy `Sound` (no '=', no line break, no trailing white space), reading the written text back line by line yields exactly the fields it was created with. |
| DesktopEntries.CreatedListed | usr/lib/web-manager/common.py:110-205 | Create/load round trip: in any directory where the created file sits under its own name and that name is listed, `get_webapps` lists the created launcher under its code name and path, valid, with the name, icon, command, category and URL it was created with. |
| DesktopEntries.EditWebapp | usr/lib/web-manager/common.py:214-224 | Sets exactly Name, Icon, Comment = "Web App" and Categories = "GTK;c;" in [Desktop Entry], keeps every other key and section, ignores the URL argument, and fails when the section is missing. |
| DesktopEntries.EditIdempotent | usr/lib/web-manager/common.py:214-224 | Editing twice with the same values leaves what the first edit wrote. |
| Strings.Lines | usr/lib/web-manager/common.py:68-69 | The lines of a file, concatenated, give back the file, and every line but the last ends with its line break. |
| Strings.LinesShape | usr/lib/web-manager/common.py:68-69 | No line is empty, and no line holds a line break before its end: each line runs to the first break. |
| Strings.LinesConcat | usr/lib/web-manager/common.py:159-205 | Text written one line at a time is read back as the same lines. |
| Strings.Strip | usr/lib/web-manager/common.py:70 | A stripped line has white space at neither end, is empty exactly when the line is blank, and leaves a trimmed line unchanged. |
| Strings.StripSlice | usr/lib/web-manager/common.py:70 | The stripped line is a slice of the line, and everything outside that slice is white space. |
| Strings.Letters | usr/lib/web-manager/common.py:156 | Keeps only letters, and keeps a name made only of letters whole. |
| Strings.LettersInOrder | usr/lib/web-manager/common.py:156 | The letters of a concatenation are the letters of each part, in order; a single character is kept exactly when it is a letter. |
| Window.Filled | usr/lib/web-manager/main.py:351-353 | The entry text is not blank; `GetUrl` returns "" exactly when it is blank. |
| Window.GetUrl | usr/lib/web-manager/main.py:350-356 | The URL is empty exactly when the entry text is blank. Stripped text holding "://" is returned as it is, and any other non-blank text gets "http://" in front. Every non-empty result is trimmed, contains "://" and ends with the stripped text. |
| Window.GetUrlIdempotent | usr/lib/web-manager/main.py:350-356 | Feeding the URL back in returns the same URL. |
| Window.OkButtonEnabled | usr/lib/web-manager/main.py:414-418 | The OK button is enabled exactly when the name is non-empty and the URL text is not blank. |
| Window.FaviconButtonEnabled | usr/lib/web-manager/main.py:406-410 | The favicon button is enabled exactly when the URL text is not blank. |
| Window.PreferredIcon | usr/lib/web-manager/main.py:427-435 | google with a subdomain s gives "web-google-s", and with subdomain "mail" gives "web-google-gmail". gmail gives "web-google-gmail" and youtube gives "web-google-youtube". Any other domain has no preferred name. |
| Window.FirstIn | usr/lib/web-manager/main.py:436-441 | Finds the first candidate the theme has, or reports that it has none. |
| Window.GuessIcon | usr/lib/web-manager/main.py:420-441 | The chooser ends up with a name the theme has or keeps its own name, and it keeps its own name when the URL is blank. |
| Window.GuessIconFirst | usr/lib/web-manager/main.py:420-441 | The guess is the preferred name if the theme has it, else "web-domain", else the domain, else the chooser's current name. An empty domain changes nothing. |
| Window.SavedIconAsWritten | usr/lib/web-manager/main.py:287-292 | As written: an icon path containing "/tmp" anywhere is replaced by the kept icon file, and any other icon is kept. |
| Window.TmpNameRecopies | usr/lib/web-manager/main.py:287-292 | For a name whose letters start with "tmp", the kept icon path itself contains "/tmp", so saving again copies that file onto itself. |
| Window.TmpMailRecopies | usr/lib/web-manager/main.py:287-292 | A concrete instance: the name "tmpmail" with the icon "/tmp/a.png". |
| Window.SavedIcon | usr/lib/web-manager/main.py:287-292 | Corrected rule: exactly the icons under "/tmp/" are replaced by the kept icon file, and every other icon is kept. |
| Window.SavedIconSettles | usr/lib/web-manager/main.py:287-292 | Under the corrected rule a saved icon is no longer temporary, so saving again under any name copies nothing. |
| Window.OkButton | usr/lib/web-manager/main.py:280-298 | As written: an icon whose path contains "/tmp" is copied to the kept icon file first, and the save fails with nothing sent exactly when that file is the icon itself. Otherwise it sends an edit exactly in edit mode, else a create, carrying `get_url`'s URL, the name, the category and the icon `SavedIconAsWritten` gives. |
| Window.TmpMailEditFails | usr/lib/web-manager/main.py:280-298 | Creating "tmpmail" with the downloaded icon "/tmp/a.png" sends the kept icon path, and editing that launcher afterwards with that icon fails before anything is sent. |
| Window.OkButtonCorrected | usr/lib/web-manager/main.py:280-298 | Corrected rule: the same save, where only an icon under "/tmp/" is copied and the request carries the icon `SavedIcon` gives. |
| Window.OkButtonCorrectedSettles | usr/lib/web-manager/main.py:280-298 | Under the corrected rule, with a home directory outside "/tmp/", a save always goes through, and saving again with the icon it sent, under any name and in either mode, copies nothing and keeps that icon. |

## Left out

- Unicode letters: `str.isalpha` (in the code name and the kept icon name) and `str.lower` (of the URL in `guess_icon` and of the scheme in `urlparse`) are modelled for ASCII letters only. `str.isspace` covers all of Python's white-space characters.
- `urllib.parse`: a simplified splitter following section 3 of RFC 3986 replaces `urlparse`/`urlunparse`. Its stripping of leading C0 control characters and spaces, its removal of tab and newline characters, its IPv6 bracket checks and its caching are not modelled.
- Line iteration splits only at "\n". Python's universal newlines also split at "\r" and "\r\n".
- `configparser`: `edit_webapp` is modelled on the section → key → value map it edits. Reading and writing the INI text (comments, key order, `space_around_delimiters`) is left out.
- gettext: `_("Web App")` is the untranslated "Web App".
- `random.choice`: the four digits are a parameter of `create_webapp`.
- `tldextract` and `IconTheme.has_icon` are a parameter function and a set of names in `guess_icon`.
- The network, BeautifulSoup, JSON decoding, PIL decoding, resampling, PNG saving and `tempfile` names are inputs. A temporary file is identified by the order in which it was made.
- Filesystem effects (`makedirs`, `copytree`, `copy`, `os.replace`, `symlink`, `copyfile`) are described by the `Created` and `Outcome` values rather than performed. `delete_webbapp` and the directory creation in `QuicklyWebManager.__init__` are not part of this model: `delete_webbapp` removes the three profile directories and the launcher file, and `__init__` creates directories. Neither computes a value the rest of the model reads.
- `get_supported_browsers` (the fixed browser list) is not modelled. A browser is a parameter given by its family and command.
- GTK widgets, signal wiring, `load_webapps`, `show_favicons`, the `_async`/`idle` threading decorators, `subprocess.Popen`, `setproctitle` and the `navbar` option of `create_webapp` (a CSS file copy) are left out.
- `get_webapps`: the `try`/`except` around reading a launcher is modelled as an unreadable entry that is skipped. Decoding errors are not modelled separately.
- DesktopEntries.Launcher.constructor: the parse loop updates local variables and stores them in the object's fields once it ends, where `WebAppLauncher.__init__` assigns `self.name` and the others as it goes. Nothing can see the object before the constructor returns, so only the order of the writes differs.
- DesktopEntries.CreatedListed: the round trip is proved only for a name, icon, URL, category, home directory, browser path and code name that hold no '=' at all, as `DesktopEntries.Sound` states. The parser reads back more than that: its `in` tests and `replace` calls misread a value only when it holds one of the key patterns "Name=", "Icon=", "Exec=", "Categories=", "X-WebApp-URL=" or a StartupWMClass marker. Values with another '=', such as the query URL "https://www.youtube.com/watch?v=1", are read back as written by the source but are not covered by the proof. Besides '=', the category must hold no ';' and no value may hold a line break or end in white space.
- DesktopEntries.CreatedParses: the same restriction as `CreatedListed`: values with an '=' that is not part of a key pattern are read back by the source but left out of the proof.
- DesktopEntries.EntryParse: the name, icon and URL must satisfy `DesktopEntries.Writable`, which excludes every '='. A value holding an '=' but no key pattern is read back by the source and is not covered.
- DesktopEntries.FieldLineRead: the value must hold no '=' (`DesktopEntries.Writable`). The source also reads back a value whose '=' is not part of a key pattern, such as a query URL on the X-WebApp-URL line; that case is not covered.
- Window.OkButton: the `SameFileError` of `shutil.copyfile` is modelled as equality of the two path strings. Two different paths naming the same file (a symbolic link, "..") and every other copy failure (a missing source, a missing icons directory, permissions) are left out.

## Findings

| source | as written | input that shows it | evidently intended | confidence | as-written member | corrected member |
|---|---|---|---|---|---|---|
| usr/lib/web-manager/main.py:287-292 | An icon is copied into the icons directory when its path contains "/tmp" anywhere | A launcher named "tmpmail" saved with the downloaded icon "/tmp/a.png" keeps it as ~/.local/share/ice/icons/tmpmail.png. That path contains "/tmp", so saving the launcher again copies the file onto itself, which `shutil.copyfile` refuses with SameFileError. | Only files in the temporary directory, paths starting "/tmp/", are copied. A kept icon is then never copied again. | not executed | Window.SavedIconAsWritten, Window.TmpNameRecopies, Window.TmpMailRecopies, Window.OkButton, Window.TmpMailEditFails | Window.SavedIcon, Window.SavedIconSettles, Window.OkButtonCorrected, Window.OkButtonCorrectedSettles |

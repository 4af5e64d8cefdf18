# pyiron_gui browsers and widgets in Dafny

This project models the navigation and selection logic of pyiron_gui, the Jupyter front end of
pyiron, and proves properties of it. It covers:

- The group browsers (`HasGroupsBrowser`, its breadcrumb variant `HasGroupsBrowserWithHistoryPath`,
  the output variant `HasGroupBrowserWithOutput`, `ProjectBrowser` and `DataContainerGUI`). They
  keep a current position, a history with a cursor, one selected node and a few filters. The
  Python class hierarchy is one Dafny class `Browsers.Browser` with a constant `variant`; every
  overridden method branches on it.
- The older path-string `DataContainerBrowser`, whose positions are paths below a root container
  and whose selection is a path.
- The wrapper objects (`PyironWrapper` dispatch and the `BaseWrapper` fallbacks for `project`,
  `path`, `__getitem__` and the listings), over a data layer abstracted as a datatype (`Store`).
- The parts of `posixpath` the browsers depend on (`join`, `split`, `abspath`, `relpath`), written
  out so that the ancestor list and the wrapper's path fallback can be proved.
- `ColorScheme`, a key-to-colour table with validation.
- The decision logic of the object widgets: NumPy slicing and header state, the Murnaghan refit
  rule, the Atoms orientation rule and option parsing.
- The re-entrancy guard `_BusyCheck`, which disables buttons while it is held, and `clickable`.
- `safe_monkey_patch` and the cached browser accessors it installs.

State that Python mutates in place is a Dafny `class` whose methods have `modifies this` and
state the whole new state. Loops are methods with invariants, proved against specification
functions: the ancestor loop (`PosixPath.AncestorList`), the slice loop (`Widgets.SliceFor`), the
option-parsing loop (`Widgets.ParseOptionWidgets`) and the registry loops of the guard
(`BusyGuard.Guard.DisableAll`, `BusyGuard.Guard.RestoreAll`). Pure code is functions and lemmas.

Inputs from outside the program are parameters: widget values, the process's working directory
(`cwd`, which `os.path.relpath` and `os.path.abspath` read), the camera orientation the old NGLview
widget reports at update time and the one the new widget is drawn with, and the colour
validity test of traitlets (`accepts`).

## Model

| member | source | states |
|---|---|---|
| Store.SetItem | pyiron_gui/project/project_browser.py:921 | writing `obj[key] = value` succeeds exactly on indexable plain objects; afterwards `key` reads back `value`, every other key reads as before, and the listing and kind are unchanged |
| PosixPath.Join | pyiron_gui/wrapper/wrapper.py:64 | `posixpath.join`: an absolute second part replaces the first; otherwise the result starts with `a` and ends with `b`, with exactly one '/' between when `a` lacks a trailing one; absolute in, absolute out |
| PosixPath.SegmentsOfJoinAll | pyiron_gui/project/project_browser.py:845-857 | splitting on '/' undoes joining with '/' when no part holds a '/' |
| PosixPath.CollapseNames | pyiron_gui/project/project_browser.py:848 | normalisation leaves only proper component names (no "", ".", ".." or '/') |
| PosixPath.AbsPath | pyiron_gui/project/project_browser.py:848 | `posixpath.abspath` returns an absolute path, which starts with exactly two slashes exactly when the joined path does (POSIX leaves "//" implementation-defined, so `normpath` keeps it) |
| PosixPath.RootOf | pyiron_gui/project/project_browser.py:848 | the leading slashes `abspath` keeps are "/" or "//" |
| PosixPath.AbsPathIdempotent | pyiron_gui/project/project_browser.py:848 | `abspath` is idempotent: the normalised path names the same components and normalises to itself |
| PosixPath.RelPath | pyiron_gui/wrapper/wrapper.py:73-75 | `os.path.relpath` raises ValueError exactly for an empty path |
| PosixPath.RelPathSame | pyiron_gui/wrapper/wrapper.py:75-76 | relpath answers "." exactly when both paths name the same directory |
| PosixPath.RelPathBelow | pyiron_gui/wrapper/wrapper.py:73-75 | a path naming the start's directory followed by components `cs` is `'/'.join(cs)` relative to the start |
| PosixPath.RelPathAbove | pyiron_gui/wrapper/wrapper.py:73-75 | a path naming a leading part of the start's directory, `n` components shorter, is `n` times ".." joined by '/' relative to the start |
| PosixPath.RelPathToParent | pyiron_gui/wrapper/wrapper.py:73-75 | the parent of the start's directory is ".." relative to it |
| PosixPath.Head | pyiron_gui/project/project_browser.py:852 | the head of `os.path.split` is a prefix of the path |
| PosixPath.Chain | pyiron_gui/project/project_browser.py:850-857 | the fix-point split chain ends with the path itself |
| PosixPath.SplitStep | pyiron_gui/project/project_browser.py:851-854 | one loop step keeps "still to collect + collected, reversed" equal to the whole chain, and the head strictly shrinks until it stops changing |
| PosixPath.AncestorList | pyiron_gui/project/project_browser.py:845-857 | the `while` loop of `_gen_pathbox_path_list`, after one trailing '/' is dropped, returns exactly the split chain of the path |
| PosixPath.HeadOfAbsolute | pyiron_gui/project/project_browser.py:852 | splitting a normalised absolute path drops its last component, and a one-component path splits to its root, "/" or "//" |
| PosixPath.ChainOfAbsolute | pyiron_gui/project/project_browser.py:845-857 | the chain of a normalised absolute path is its root ("/" or "//") followed by the path of every leading run of its components |
| PosixPath.AncestorsOfAbsPath | pyiron_gui/project/project_browser.py:845-857 | the ancestor loop on `abspath(p)` yields every ancestor from the root ("/", or "//" for a path with exactly two leading slashes) down to the normalised path; a trailing slash makes no difference; at "/" the list is [""] and at "//" it is ["/"] |
| PosixPath.ChainOfRoot | pyiron_gui/datacontainer/browser.py:236-244 | on the root path "/", the trailing '/' is dropped first and the chain is [""] |
| Wrapper.PyironWrapper | pyiron_gui/wrapper/wrapper.py:26-38 | the dispatch wraps any object; the wrapper is an AtomsWrapper exactly for Atoms and a MurnaghanWrapper exactly for Murnaghan, and keeps the object, project and relative path |
| Wrapper.NameOfDispatch | pyiron_gui/wrapper/wrapper.py:108-122 | a dispatched wrapper is named "structure" for Atoms, "murnaghan" for Murnaghan, and None otherwise |
| Wrapper.WrapperProject | pyiron_gui/wrapper/wrapper.py:55-59 | `project` is the wrapped object's project when it has one, else the project given at construction |
| Wrapper.PathAttr | pyiron_gui/wrapper/wrapper.py:61-67 | `path` is the wrapped object's path when present; else the join of the project's path and the relative path; else AttributeError |
| Wrapper.GetItem | pyiron_gui/wrapper/wrapper.py:69-78 | `wrapper[key]` indexes the wrapped object first and returns that result unless it raised IndexError, KeyError or TypeError; the path fallback needs a project |
| Wrapper.Groups | pyiron_gui/wrapper/wrapper.py:88-92 | `list_groups` exists exactly on HasGroups positions; a wrapper whose object lists nothing answers [] |
| Wrapper.Nodes | pyiron_gui/wrapper/wrapper.py:94-98 | `list_nodes` likewise |
| Wrapper.Files | pyiron_gui/wrapper/wrapper.py:80-86 | `list_files` exists exactly when the (wrapped) object has it |
| Wrapper.SegmentsOfSlashJoin | pyiron_gui/wrapper/wrapper.py:73-75 | splitting `a + "/" + b` gives the split of `a` followed by the split of `b` |
| Wrapper.CollapseAppend | pyiron_gui/wrapper/wrapper.py:73-75 | normalising a concatenation is normalising the second part on top of the first |
| Wrapper.DotNamesSameDirectory | pyiron_gui/wrapper/wrapper.py:73-76 | joining "." to an absolute path names the same directory |
| Wrapper.EmptyNamesSameDirectory | pyiron_gui/wrapper/wrapper.py:64-65 | a wrapper at `join(project.path, "")` names the project's own directory |
| Wrapper.GetItemDot | pyiron_gui/wrapper/wrapper.py:73-76 | `wrapper["."]` returns the wrapper's project when the object cannot be indexed by "." and the wrapper's path names the same directory as the project's path ("/p/" against "/p" included) |
| Wrapper.JoinComponentParts | pyiron_gui/wrapper/wrapper.py:74 | joining one separator-free component to an absolute path normalises like pushing it on the path's components: a name is appended, ".." drops the last, "." changes nothing |
| Wrapper.ParentRelPath | pyiron_gui/wrapper/wrapper.py:73-75 | `relpath(join(p, ".."), q)` for `q` naming the directory of an absolute `p` is ".." below the file-system root and "." at the root |
| Wrapper.GetItemName | pyiron_gui/wrapper/wrapper.py:69-78 | `wrapper[k]` for a component name `k` the wrapped object cannot index, with the wrapper's path naming its project's directory, is the project's own `[k]` |
| Wrapper.GetItemParent | pyiron_gui/wrapper/wrapper.py:69-78 | `wrapper[".."]` under the same conditions is the project's own `[".."]` below the file-system root and the project itself at the root |
| Navigation.Take | pyiron_gui/project/project_browser.py:318 | Python's `s[:k]`: length `min(k, len(s))` and the same leading entries |
| Navigation.Enter | pyiron_gui/project/project_browser.py:316-319 | the setter's history step: the cursor moves on by one to the last entry, which is the new position, and the entries up to the old cursor are kept |
| Navigation.Back | pyiron_gui/project/project_browser.py:341-344 | `_go_back` moves the cursor back one and keeps the history |
| Navigation.Forward | pyiron_gui/project/project_browser.py:346-349 | `_go_forward` moves the cursor on one and keeps the history |
| Navigation.Load | pyiron_gui/project/project_browser.py:335-339 | `_load_history(k)` puts the cursor on entry `k` and keeps the history |
| Navigation.BackForward | pyiron_gui/project/project_browser.py:341-349 | back then forward, or forward then back, returns to the same cursor |
| Navigation.EnterBackForward | pyiron_gui/project/project_browser.py:310-349 | after entering a position, back lands on the position entered from, and forward returns to the entered one |
| Navigation.EnterAllKeepsPrefix | pyiron_gui/project/project_browser.py:316-319 | entering positions never changes the history up to the starting cursor |
| Navigation.EnterAllThenBack | pyiron_gui/project/project_browser.py:310-344 | entering n groups and going back n times returns to the starting position |
| Navigation.PathEnter | pyiron_gui/project/project_browser.py:497-500 | entering a group by name cuts the breadcrumb after the cursor and appends the name |
| Navigation.PathView | pyiron_gui/project/project_browser.py:502-504 | `path_list` is the breadcrumb up to and including the cursor |
| Navigation.PathEnterInStep | pyiron_gui/project/project_browser.py:484-504 | with one breadcrumb entry per history entry, entering a group keeps the two the same length, and the shown breadcrumb gains exactly the group name |
| Navigation.BreadcrumbTrace | pyiron_gui/project/project_browser.py:484-504 | entering B and B1 shows [/, B, B1]; going back shows [/, B]; entering B2 from there shows [/, B, B2] |
| Colors.Put | pyiron_gui/project/project_browser.py:157 | a dict assignment: a new key goes last, an existing key keeps its place, and the key maps to the value |
| Colors.Accepted | pyiron_gui/project/project_browser.py:163-168 | `add_colors` stores the longest run of leading items whose key is an identifier and whose colour is valid |
| Colors.PutAllLookup | pyiron_gui/project/project_browser.py:163-168 | after storing items with distinct keys, each key has its item's colour |
| Colors.PutAllKeepsOthers | pyiron_gui/project/project_browser.py:163-168 | keys not among the stored items keep their colour |
| Colors.PutAllKeepsOrder | pyiron_gui/project/project_browser.py:163-168 | the keys already present keep their order in front |
| Colors.Pairs | pyiron_gui/project/project_browser.py:184-185 | each key paired with its colour, in key order |
| Colors.ColorScheme.constructor | pyiron_gui/project/project_browser.py:143-147 | a new scheme is empty |
| Colors.ColorScheme.Get | pyiron_gui/project/project_browser.py:149-153 | `scheme[key]` gives the stored colour, or KeyError exactly for a key never added |
| Colors.ColorScheme.Set | pyiron_gui/project/project_browser.py:155-161 | `scheme[key] = value` changes only a key already present, and only to a valid colour; otherwise ValueError and nothing changes |
| Colors.ColorScheme.AddColors | pyiron_gui/project/project_browser.py:163-168 | the loop stores the accepted leading items in order and raises ValueError at the first bad one |
| Colors.ColorScheme.Items | pyiron_gui/project/project_browser.py:178-185 | `items()` lists every key in insertion order with the colour `scheme[key]` returns |
| Colors.DefaultColorsAccepted | pyiron_gui/project/project_browser.py:238-245 | given valid colour strings, the default colours of the browsers are all stored |
| Browsers.Without | pyiron_gui/project/project_browser.py:284-289 | the filter comprehension keeps exactly the names not in the filter |
| Browsers.WithoutKeepsOrder | pyiron_gui/project/project_browser.py:284-289 | the filter keeps the order of what it keeps |
| Browsers.ListNodes | pyiron_gui/project/project_browser.py:280-289 | `_list_nodes` is every node under `_show_all`, otherwise exactly the nodes not in `_node_filter` |
| Browsers.DropExtensions | pyiron_gui/project/project_browser.py:298-302 | keeps exactly the files that do not end with a filtered extension |
| Browsers.ListFiles | pyiron_gui/project/project_browser.py:294-304 | `_list_files` is [] without `list_files`; every file under `_show_all`; the files without a filtered extension for a Project with `_show_files` set; [] otherwise |
| Browsers.EntriesPartition | pyiron_gui/project/project_browser.py:384-420 | group and node buttons together show every group, node and file exactly once; a Project shows its nodes with the groups, other sources with the files |
| Browsers.ConcatAppend | pyiron_gui/project/project_browser.py:121 | `"".join` of a concatenation is the concatenation of the joins |
| Browsers.OutputLinesPrefix | pyiron_gui/project/project_browser.py:118-127 | the output starts with at most the first 2000 lines joined, and a longer list ends with the "file too long" note |
| Browsers.OutputLinesCut | pyiron_gui/project/project_browser.py:118-127 | a short list is shown whole, and lines past the 2000th never change the output |
| Browsers.Resolve | pyiron_gui/project/project_browser.py:581-595 | the output worker's target is `position[rel]`, wrapped when "TYPE" is among its nodes and `to_object()` succeeds, kept as is after a ValueError; other errors propagate; a non-HasGroups result is an AttributeError |
| Browsers.EnterKeepsGroups | pyiron_gui/project/project_browser.py:313-319 | entering a HasGroups position keeps every history entry a HasGroups |
| Browsers.Browser.constructor | pyiron_gui/project/project_browser.py:206-246 | a new browser stands on the position with a one-entry history, nothing selected and the default filters; the breadcrumb variants start with ["/"] |
| Browsers.Browser.Configured | pyiron_gui/project/project_browser.py:616-655 | a `ProjectBrowser` built with `fix_path` and `show_files` |
| Browsers.Browser.Create | pyiron_gui/project/project_browser.py:206-216 | TypeError for a position that is not a HasGroups; for a `ProjectBrowser`, AttributeError when the position has no path |
| Browsers.Browser.GroupList | pyiron_gui/project/project_browser.py:269-274 | `groups` never raises at a position the browser holds: it is the position's `list_groups()`, and [] for a wrapper around an object without groups |
| Browsers.Browser.NodeList | pyiron_gui/project/project_browser.py:277-289 | `nodes` is the filtered node list of the current position |
| Browsers.Browser.FileList | pyiron_gui/project/project_browser.py:290-304 | `files` lists only files of the current position; outside "show all" no file with a filtered extension and no file at all unless the position is a Project with files shown; under "show all" every file |
| Browsers.Browser.Data | pyiron_gui/project/project_browser.py:809-816 | `data` is the selection; with nothing selected, a `ProjectBrowser` on a wrapper answers with the wrapped object |
| Browsers.Browser.PathListView | pyiron_gui/project/project_browser.py:502-504 | `path_list` has one entry per history entry up to the cursor |
| Browsers.Browser.SetProject | pyiron_gui/project/project_browser.py:310-320 | the setter raises RuntimeError while locked and TypeError for a non-HasGroups, changing nothing; otherwise it enters the position: forward history dropped, selection cleared (kept by the breadcrumb variants, which cut the breadcrumb instead) and settings unchanged |
| Browsers.Browser.EnterPosition | pyiron_gui/project/project_browser.py:316-325 | the accepted setter's state change |
| Browsers.Browser.PushHistory | pyiron_gui/project/project_browser.py:316-319 | the history is cut after the cursor and the position appended, nothing else changes |
| Browsers.Browser.LoadHistory | pyiron_gui/project/project_browser.py:335-339 | `_load_history(k)` moves to entry `k`, clears the selection and never alters the history list; the refresh then raises AttributeError, after the move, exactly at a `ProjectBrowser` entry without `path` |
| Browsers.Browser.RefreshError | pyiron_gui/project/project_browser.py:739-745 | a refresh raises AttributeError exactly for a `ProjectBrowser` at a position without `path`, whose path buttons (845-849) read it |
| Browsers.Browser.GoBack | pyiron_gui/project/project_browser.py:341-344 | moves back one entry and clears the selection; AttributeError after the move at a pathless `ProjectBrowser` entry |
| Browsers.Browser.GoForward | pyiron_gui/project/project_browser.py:346-349 | moves forward one entry and clears the selection; AttributeError after the move at a pathless `ProjectBrowser` entry |
| Browsers.Browser.UpdateProject | pyiron_gui/project/project_browser.py:377-378 | entering a group by name (also through the overrides at 497-500 and 597-599): lookup errors propagate with nothing changed, a locked browser raises RuntimeError, a non-HasGroups raises TypeError; otherwise the setter's state change (310-325): the history gains the position, the settings and `_clickedFiles` stay, the plain and output variants clear the selection and data while the breadcrumb variants keep them and their breadcrumb is cut after the cursor and gains the name, and other variants keep `_path_list` |
| Browsers.Browser.SelectNode | pyiron_gui/project/project_browser.py:404-414 | clicking the selected node deselects it; another node becomes the only selection with its value; a KeyError, IOError or ValueError empties the selection; other errors leave the node selected |
| Browsers.Browser.SetData | pyiron_gui/project/project_browser.py:914-925 | the `DataContainerGUI` setter writes the value under the selected listed node into the current position and its history entry and reads it back as the selection, leaving the breadcrumb, settings and `_clickedFiles` alone; ValueError with nothing changed when no listed node is selected, and the error of `project[node] = val` with nothing changed when the write raises |
| Browsers.Browser.WriteSelected | pyiron_gui/project/project_browser.py:920-923 | `project[node] = val` either raises, leaving everything as it was, or replaces the position and its history entry by the written one, under which the node reads back `val`, and selects the node with `val` as data; the listing, settings, breadcrumb and `_clickedFiles` stay |
| Browsers.Browser.UpdateProjectPath | pyiron_gui/project/project_browser.py:818-843 | "." and an absolute path naming the current directory change nothing; they stay, except that "." at a position without `path` raises AttributeError from the refresh; an absolute path at a position without `path` raises AttributeError; otherwise the worker resolves the path relative to the current position (`WorkerPath`): a ValueError or AttributeError of the lookup prints "No valid path" with nothing changed, other errors and a fixed position raise with nothing changed, and a resolved target is entered through the setter, after which the browser moves when the target has a `path` and prints "No valid path", already moved, when it has none |
| Browsers.WorkerPath | pyiron_gui/project/project_browser.py:836-837 | the worker gets a relative path as given and an absolute one made relative to the current path, which must exist |
| Browsers.WorkerOutcome | pyiron_gui/project/project_browser.py:818-831 | a printed outcome is always "No valid path"; a lookup error is printed exactly when it is a ValueError or AttributeError; the browser reports a move only to a target with a `path` |
| Browsers.Browser.SetPathboxPath | pyiron_gui/project/project_browser.py:792-800 | nothing happens while the position is fixed; an empty text prints "No path given" |
| Browsers.Browser.ResetData | pyiron_gui/project/project_browser.py:804-807 | clears `_clickedFiles` and the data but not the selected nodes |
| Browsers.Browser.SetInitialProject | pyiron_gui/project/project_browser.py:660-665 | TypeError for a non-HasGroups; otherwise the position is put in front of the history and the cursor follows |
| Browsers.Browser.PathboxPathList | pyiron_gui/project/project_browser.py:845-857 | every ancestor of the normalised current path, from its root ("/" or "//") down to the path itself |
| Browsers.Browser.Copy | pyiron_gui/project/project_browser.py:251-264 | every variant but `ProjectBrowser`: a new browser on the same position with the same history, cursor, filters and switches, no selection, and the breadcrumb variants' breadcrumb reset to ["/"]; a `ProjectBrowser` copy (707-717) raises AttributeError at a position without `path`, and otherwise has history [initial, current] at cursor 1, keeps the fixed-position, show-files and hide-path settings, turns "show all" off and gets the default node and extension filters |
| Browsers.Browser.CopyOf | pyiron_gui/project/project_browser.py:251-260 | `__copy__` of the inherited variants |
| Browsers.Browser.CopyProjectBrowser | pyiron_gui/project/project_browser.py:707-717 | the `ProjectBrowser` copy: same lock, `_show_files` and `_hide_path`, history [initial, current] |
| Browsers.Browser.CopyWithBreadcrumb | pyiron_gui/project/project_browser.py:251-260 | a copy that keeps the breadcrumb in step with the copied history |
| Browsers.Browser.CopiedBreadcrumbOutOfStep | pyiron_gui/project/project_browser.py:251-260 | the copy of any breadcrumb browser past its first position has the original's history and cursor but shows ["/"], one entry for `idx + 1` positions, and entering a group next shows ["/", name] |
| ContainerBrowser.DataContainerBrowser.constructor | pyiron_gui/datacontainer/browser.py:31-66 | starts at the root with path "", not busy and nothing selected |
| ContainerBrowser.DataContainerBrowser.AbsPathStr | pyiron_gui/datacontainer/browser.py:101-104 | `abs_path` is absolute and is `_path` after the leading '/' |
| ContainerBrowser.DataContainerBrowser.BusyCheck | pyiron_gui/datacontainer/browser.py:106-111 | reports True and changes nothing exactly when busy and asked to take the flag; otherwise sets the flag |
| ContainerBrowser.DataContainerBrowser.Worker | pyiron_gui/datacontainer/browser.py:198-218 | (`Worked`) "/" and "" go to the root; otherwise one leading '/' is stripped and the path looked up in the root; a HasGroups result becomes the position at that path; ValueError, AttributeError, KeyError or a result without `list_nodes` print "No valid path" and change nothing; other errors propagate with nothing changed |
| ContainerBrowser.DataContainerBrowser.UpdateProject | pyiron_gui/datacontainer/browser.py:220-231 | an empty path raises ValueError; a path naming the current directory changes nothing; any other path does what the worker does (`Worked`) |
| ContainerBrowser.DataContainerBrowser.UpdateProjectTo | pyiron_gui/datacontainer/browser.py:228-230 | a container becomes the position at path "" |
| ContainerBrowser.DataContainerBrowser.SetPath | pyiron_gui/datacontainer/browser.py:164-174 | empty text prints "No path given"; relative text is appended to `abs_path` with '/', absolute text is used verbatim, and the resulting path is handed to `_update_project`: the current directory changes nothing, any other path does what the worker does |
| ContainerBrowser.DataContainerBrowser.ResetSelection | pyiron_gui/datacontainer/browser.py:175-177 | clears the selection |
| ContainerBrowser.DataContainerBrowser.OptionButton | pyiron_gui/datacontainer/browser.py:144-178 | skipped while busy; otherwise the flag is released exactly when the action did not raise; "Reset selection" clears the selection and data and keeps the position; "Set Path" does what `SetPath` does on the text (`SetPathDone`) and keeps the root and selection; any other button changes nothing |
| ContainerBrowser.DataContainerBrowser.PathButton | pyiron_gui/datacontainer/browser.py:220-263 | the same busy handling, with the root and selection never changed; the home button's container becomes the position at path ""; a path naming the current directory changes nothing, another non-empty path does what the worker does, and a breadcrumb path "" raises ValueError and leaves the flag taken |
| ContainerBrowser.DataContainerBrowser.OnClickFile | pyiron_gui/datacontainer/browser.py:279-294 | shows the fetched value (nothing after KeyError or IOError) and toggles the selection of `join(path, filename)`, recorded even when the fetch failed |
| ContainerBrowser.DataContainerBrowser.ToggleSelection | pyiron_gui/datacontainer/browser.py:289-294 | a second click deselects, a new path replaces the selection |
| ContainerBrowser.DataContainerBrowser.Data | pyiron_gui/datacontainer/browser.py:180-185 | `data` reads `root[_data]` when something is selected, and None otherwise |
| ContainerBrowser.DataContainerBrowser.SetData | pyiron_gui/datacontainer/browser.py:187-196 | RuntimeError when nothing is selected; the error of `container[path] = value` with the root and `_clicked_data` unchanged when the write raises; otherwise the root becomes the written container, `_clicked_data` is cleared, `_data` kept, and `data` then reads the value |
| ContainerBrowser.DataContainerBrowser.PathboxPathList | pyiron_gui/datacontainer/browser.py:233-245 | the ancestor loop run on `abs_path` |
| ContainerBrowser.DataContainerBrowser.Copy | pyiron_gui/datacontainer/browser.py:83-86 | the copy starts at the root with an empty path and no selection |
| ContainerBrowser.BreadcrumbOfPath | pyiron_gui/datacontainer/browser.py:233-245 | below the root the breadcrumb is "/" and each leading run of components; at the root it is [""] |
| ContainerBrowser.RootBreadcrumbRaises | pyiron_gui/datacontainer/browser.py:233-245 | at the root the only breadcrumb path is "", which `relpath` rejects with ValueError |
| ContainerBrowser.RootedBreadcrumb | pyiron_gui/datacontainer/browser.py:233-245 | the corrected breadcrumb starts with "/" and has one entry per component more |
| ContainerBrowser.RootedBreadcrumbSafe | pyiron_gui/datacontainer/browser.py:220-224 | every corrected breadcrumb entry is absolute and accepted by `relpath`; the last is `abs_path` |
| Widgets.ParseOptionWidgets | pyiron_gui/wrapper/widgets.py:122-124 | the loop copies each widget value into the options under its key and leaves other keys alone |
| Widgets.InitPlotOptions | pyiron_gui/wrapper/widgets.py:334-366 | no options below rank 3; otherwise axes [0, 1] and ndim - 2 fixed indices, all 0 |
| Widgets.ReplotLabel | pyiron_gui/wrapper/widgets.py:276-280 | "Replot" exactly below rank 3, "Apply" from rank 3 |
| Widgets.SkippedCount | pyiron_gui/wrapper/widgets.py:392-399 | the counter `i` at axis k is k less the selected axes below k |
| Widgets.SkippedInRange | pyiron_gui/wrapper/widgets.py:394-399 | every unselected axis finds its fixed index |
| Widgets.SliceOfAt | pyiron_gui/wrapper/widgets.py:392-399 | a selected axis gets a full slice, and the j-th unselected axis gets `idx[j]` |
| Widgets.SliceFor | pyiron_gui/wrapper/widgets.py:392-399 | the slice loop builds exactly that slice |
| Widgets.CountFullStep | pyiron_gui/wrapper/widgets.py:392-399 | one more axis adds a full entry exactly when it is selected |
| Widgets.TwoFullAxes | pyiron_gui/wrapper/widgets.py:392-399 | the slice for two distinct selected axes has exactly two full entries |
| Widgets.DefaultSlice | pyiron_gui/wrapper/widgets.py:383-387 | without options the slice is [:, :, 0, ..., 0] |
| Widgets.InitialSelectionIsDefault | pyiron_gui/wrapper/widgets.py:339-366 | the initial selection slices the array as the default slice does |
| Widgets.NumpyWidget.PlotHeader | pyiron_gui/wrapper/widgets.py:304-316 | the plot header: both buttons in an HBox below rank 3, next to the option box from rank 3 |
| Widgets.NumpyWidget.constructor | pyiron_gui/wrapper/widgets.py:263-288 | options and label by rank, a first plot and the plot header |
| Widgets.DefaultSliceInBounds | pyiron_gui/wrapper/widgets.py:383-400 | the first slice `[:, :, 0, ..., 0]` lies within the array exactly when no axis past the first two is empty |
| Widgets.InitialPlotInBounds | pyiron_gui/wrapper/widgets.py:334-400 | the option widgets as created select the first slice `[:, :, 0, ..., 0]`, which an array with no empty axis past the first two can take |
| Widgets.NumpyWidget.PlotArray | pyiron_gui/wrapper/widgets.py:368-400 | rank 1 plots whole; rank 2 plots row 0 of a one-row array, else whole; from rank 3 a selection of other than two axes prints the error and plots nothing; two axes plot their slice when every fixed index lies within its axis (`-n <= i < n`), and otherwise IndexError is raised with the old plot kept |
| Widgets.NumpyWidget.ShowPlot | pyiron_gui/wrapper/widgets.py:304-316 | the header becomes the plot header |
| Widgets.NumpyWidget.ShowDataOnly | pyiron_gui/wrapper/widgets.py:293-298 | the header holds only "Show plot" |
| Widgets.NumpyWidget.ClickReplot | pyiron_gui/wrapper/widgets.py:300-302 | re-plots with the current option values and restores the plot header: rank 1 whole, rank 2 by row 0 for a one-row array and whole otherwise, higher ranks by the selected two-axes slice with the message kept, or the old plot and the axes error when not exactly two axes are selected; a fixed index outside its axis raises IndexError, keeping the old plot and the old header |
| Widgets.RefitDecision | pyiron_gui/wrapper/widgets.py:237-255 | no refit exactly when the requested type equals the cached one (and, for "polynomial", the order too); otherwise exactly one routine, with the requested order or type |
| Widgets.RefitMatchesRequest | pyiron_gui/wrapper/widgets.py:237-255 | the three named types run their own routine, any other type the general one |
| Widgets.MurnaghanWidget.constructor | pyiron_gui/wrapper/widgets.py:161-171 | options are the cached fit type and order 3; the order field is off exactly for a non-polynomial type |
| Widgets.MurnaghanWidget.OnChangeFitType | pyiron_gui/wrapper/widgets.py:212-218 | the order field is disabled and hidden exactly when the type is not "polynomial" |
| Widgets.MurnaghanWidget.UpdateBox | pyiron_gui/wrapper/widgets.py:231-259 | parses the options and refits exactly when they differ from the cached fit |
| Widgets.AtomsKeysCover | pyiron_gui/wrapper/widgets.py:122-124 | the parse loop walks exactly the option keys |
| Widgets.Orientation | pyiron_gui/wrapper/widgets.py:126-157 | the new view keeps its drawn orientation unless the one captured from the old view at update time is carried over |
| Widgets.OrientationRestored | pyiron_gui/wrapper/widgets.py:128-157 | the captured orientation, user rotations included, is carried over exactly when "reset view" is off, there was an old view and it reported 16 values; otherwise the drawn one stays |
| Widgets.AtomsWidget.constructor | pyiron_gui/wrapper/widgets.py:45-58 | the default options and no view |
| Widgets.AtomsWidget.UpdateView | pyiron_gui/wrapper/widgets.py:126-157 | every option takes its widget's value and the new view carries the orientation rule applied to what the old view reports at update time |
| BusyGuard.DisableButtons | pyiron_gui/utils/decorators.py:32-35 | `busy = True` disables every Button and leaves other widgets alone |
| BusyGuard.SavedFlags | pyiron_gui/utils/decorators.py:32-34 | it records the `disabled` flag of exactly the Buttons |
| BusyGuard.Restore | pyiron_gui/utils/decorators.py:36-39 | `busy = False` writes the recorded flags back, KeyError exactly when a recorded key is no longer registered |
| BusyGuard.DisableRestoreRoundTrip | pyiron_gui/utils/decorators.py:30-41 | taking and releasing the guard on an unchanged registry gives every widget back its `disabled` flag |
| BusyGuard.DisabledByKey | pyiron_gui/utils/decorators.py:32-35 | a registry agreeing key by key with the disabled one is it |
| BusyGuard.RecordedByKey | pyiron_gui/utils/decorators.py:32-34 | a record agreeing key by key with the saved flags is it |
| BusyGuard.Guard.constructor | pyiron_gui/utils/decorators.py:21-24 | not busy and nothing recorded |
| BusyGuard.Guard.SetBusy | pyiron_gui/utils/decorators.py:30-41 | the `busy` setter: True records and disables the Buttons; False restores the record or raises KeyError |
| BusyGuard.Guard.DisableAll | pyiron_gui/utils/decorators.py:32-35 | the loop yields the disabled registry and the record |
| BusyGuard.Guard.RestoreAll | pyiron_gui/utils/decorators.py:36-39 | the loop writes the record back |
| BusyGuard.Guard.Check | pyiron_gui/utils/decorators.py:47-53 | reports True and changes nothing exactly when busy and asked to take the guard; otherwise sets `busy` to its argument |
| BusyGuard.Guard.Guarded | pyiron_gui/utils/decorators.py:55-65 | a call while busy is skipped and `busy` stays True; a call while idle runs with the guard taken and releases it in `finally` even when the function raises |
| BusyGuard.MakeClickable | pyiron_gui/utils/decorators.py:76-102 | ValueError exactly for more than one positional argument, `*args`, `**kwargs` or defaults; a one-argument function gets a wrapper taking `self` |
| BusyGuard.CallClickable | pyiron_gui/utils/decorators.py:90-100 | the wrapper binds `self` and the button by position or keyword, TypeError exactly when one is missing, doubled or a positional argument too many, and forwards every other keyword to the function |
| BusyGuard.ButtonIgnored | pyiron_gui/utils/decorators.py:90-102 | a clickable function gives the same result with or without the button, passed by position or by keyword, keyword arguments included |
| MonkeyPatching.TypeOf | pyiron_gui/monkey_patching.py:71-73 | functions, properties and other values each have their own type |
| MonkeyPatching.PatchOutcome | pyiron_gui/monkey_patching.py:63-97 | a kind clash exactly when the name is taken by an attribute of another type; on a free name a function or property is installed and anything else refused |
| MonkeyPatching.InstalledIff | pyiron_gui/monkey_patching.py:30-60 | a function or property is installed exactly when the name is free or holds one of the same module and name |
| MonkeyPatching.Patched | pyiron_gui/monkey_patching.py:81-92 | only an installed patch changes the table, and then it also sets the companion attribute |
| MonkeyPatching.RepatchIsIdempotent | pyiron_gui/monkey_patching.py:30-43 | patching again with the same function and companion is silent and changes nothing |
| MonkeyPatching.PatchedClass.PatchFunction | pyiron_gui/monkey_patching.py:30-60 | installs exactly when the guard allows it, returning the success flag |
| MonkeyPatching.PatchedClass.SafeMonkeyPatch | pyiron_gui/monkey_patching.py:63-97 | the table becomes the patched table, and a warning is issued exactly when the patch was not installed |
| MonkeyPatching.LazyGui.Gui | pyiron_gui/monkey_patching.py:100-103 | returns the cached browser unless there is none or a refresh is asked for, when the new one is cached and returned |

## Left out

- Widget construction, layout, colours of buttons, `refresh` redraws, `_update_body_box`,
  `_update_pathbox` and `_gen_box_children`: user-interface plumbing with no state of its own
  beyond what is modelled. The one error they raise that changes an outcome is the AttributeError
  of a `ProjectBrowser` refresh at a position without `path` (`Browsers.Browser.RefreshError`).
  It is modelled where a string path or a history move triggers the refresh:
  `Browsers.Browser.UpdateProjectPath` (after a move through the worker, and for "."),
  `Browsers.Browser.LoadHistory`, `Browsers.Browser.GoBack` and `Browsers.Browser.GoForward`.
  The button lists enter only through `Browsers.EntriesPartition`.
- `DisplayOutputGUI` conversions (pandas, nbconvert, PIL, IPython display) and every print to an
  output area: foreign libraries. Only the list-of-strings join and cut is modelled.
- Matplotlib and NGLview drawing and the Murnaghan fit routines: floating point and foreign calls.
  The model records which action is chosen. The cached fit type is not updated after a fit,
  because that happens inside the foreign routine.
- pyiron_base storage: it is abstracted as the `Store.Item` datatype. Python object identity is
  structural equality, so aliasing is not modelled. After `DataContainerGUI`'s `data` setter, only
  the current history entry holds the written container. `DataContainerBrowser`'s setter writes
  through the root only: any current container holding the written key (a sub-container reached
  by the path, or the root itself when it is current) keeps its old copy in the model.
- Store.SetItem: keys are flat entries, so a nested key such as "a/x" is an entry of its own.
  In a real DataContainer writing "a/x" changes what "a" reads; in the model "a" still reads the
  old value, and "every other key reads as before" holds of the model only.
- The colour validation of traitlets is the parameter `accepts`. `str.isidentifier` is modelled
  for ASCII only. `add_colors` with non-string keys is not modelled.
- The dead `project is None` branch of `ProjectBrowser._update_project_worker`
  (pyiron_gui/project/project_browser.py:829-831) is not modelled: positions are never None here.
- `ProjectBrowser._update_project` with a non-string argument (the home button's project):
  it goes through the `project` setter, which `Browsers.Browser.SetProject` models.
- Browsers.Browser.SetProject: the AttributeError that a `ProjectBrowser`'s refresh raises after
  the move, at a position without `path`, is not part of its outcome. For string paths the setter
  is reached only through the worker, where `Browsers.Browser.UpdateProjectPath` models it; the
  home button's project object goes to the setter directly and is not covered. The history moves
  reach such positions without the setter and report the error themselves.
- The iteration order of Python dicts in the guard's loops is not modelled. The loops run over
  sets of keys, so when `RestoreAll` raises KeyError part way the registry is only partly restored.
- Browsers.Browser.GoBack and Browsers.Browser.GoForward require a previous or next entry,
  because the source enforces this only by disabling the buttons.
- Widgets.NumpyWidget.constructor requires rank 1 or more and no empty axis past the first two,
  because `_plot_array` then raises IndexError inside `__init__` (a 0-d array falls into the
  slicing branch; an empty axis cannot take the first slice's fixed index 0), and a constructor
  that raises is not modelled.
- Widgets.NumpyWidget.ClickReplot: the "Plot-Dim" selection is taken as distinct valid axes
  (a `SelectMultiple` over `range(ndim)` cannot produce anything else).
- BusyGuard.Guard.Guarded: the decorated function's own effects are not modelled, only whether it
  raised.
- pyiron_gui/utils/busy_check.py holds the same `_BusyCheck` as pyiron_gui/utils/decorators.py,
  reading the registry as `Widget.widgets` instead of `Widget._widgets`; it is modelled once.
- MonkeyPatching.PatchOutcome: callable objects other than functions (classes, bound methods)
  are not modelled.
- DataContainerBrowser's `relpath` depends on the working directory; it is the constant `cwd`.
- Browsers.Browser.SetPathboxPath: states the locked and empty-text cases only; other text goes
  to `Browsers.Browser.UpdateProjectPath`, whose contract holds for it.
- Widgets.AtomsWidget.UpdateView: the captured orientation is a parameter; how NGLview tracks the
  camera while the user rotates it is not modelled.
- pyiron_gui/project/project.py, pyiron_gui/widgets/widgets.py and pyiron_gui/__init__.py are not
  part of this model.

## Findings

| source | as written | input that shows it | evidently intended | confidence | as-written member | corrected member |
|---|---|---|---|---|---|---|
| pyiron_gui/project/project_browser.py:251-260 | `__copy__` of the breadcrumb variants copies the history and cursor, but the new browser's breadcrumb restarts at ["/"] | a `HasGroupsBrowserWithHistoryPath` that entered "B" from "/", then copied: the copy has two history entries but `path_list` ["/"], and entering "B1" shows ["/", "B1"] | the breadcrumb is copied with the history it describes | not executed | Browsers.Browser.CopiedBreadcrumbOutOfStep | Browsers.Browser.CopyWithBreadcrumb |
| pyiron_gui/datacontainer/browser.py:233-245 | at the root, `abs_path` "/" loses its trailing '/' first, so the breadcrumb is [""], and its button calls `relpath("")`, which raises ValueError after the busy flag was taken, so the browser stays busy | a `DataContainerBrowser` at its root; click the one breadcrumb button | the root entry of the breadcrumb is "/" | not executed | ContainerBrowser.RootBreadcrumbRaises | ContainerBrowser.RootedBreadcrumb |

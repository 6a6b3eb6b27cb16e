/** The preference codec of src/AppPrefs.cpp: it turns the global
    preferences record and the recent-file history into a tagged tree and
    reads them back from one.

    The specification functions (GlobalDict, EntryDict, HistoryItems,
    PrefsTree on the writing side; DecodeEntry, DecodeHistory, DecodeGlobal,
    DecodePrefs, LoadSpec on the reading side) state what each operation
    produces. The methods build or consume the tree step by step as the
    source does and are proved against those functions. */
module AppPrefs {
  import opened Options
  import opened CInts
  import opened Benc
  import opened DisplayStates
  import opened FileHistory
  import opened GlobalPrefs

  // ---------------------------------------------------------------- keys

  /** Top-level keys of the preferences file. */
  const GlobalPrefsKey: string := "gp"
  const FileHistoryKey: string := "File History"

  /** Keys of the global section. */
  const ShowToolbarKey: string := "ShowToolbar"
  const ShowTocKey: string := "ShowToc"
  const TocDxKey: string := "Toc DX"
  const PdfAssociateDontAskKey: string := "PdfAssociateDontAskAgain"
  const PdfAssociateAssociateKey: string := "PdfAssociateShouldAssociate"
  const BgColorKey: string := "BgColor"
  const EscToExitKey: string := "EscToExit"
  const EnableAutoUpdateKey: string := "EnableAutoUpdate"
  const RememberOpenedFilesKey: string := "RememberOpenedFiles"
  const GlobalPrefsOnlyKey: string := "GlobalPrefsOnly"
  const DisplayModeKey: string := "Display Mode"
  const ZoomVirtualKey: string := "ZoomVirtual"
  const WindowStateKey: string := "Window State"
  const WindowXKey: string := "Window X"
  const WindowYKey: string := "Window Y"
  const WindowDxKey: string := "Window DX"
  const WindowDyKey: string := "Window DY"
  const InverseSearchKey: string := "InverseSearchCommandLine"
  const EnableTeXEnhancementsKey: string := "ExposeInverseSearch"
  const VersionToSkipKey: string := "VersionToSkip"
  const LastUpdateKey: string := "LastUpdate"
  const UILanguageKey: string := "UILanguage"
  const FwdSearchOffsetKey: string := "ForwardSearch_HighlightOffset"
  const FwdSearchColorKey: string := "ForwardSearch_HighlightColor"
  const FwdSearchWidthKey: string := "ForwardSearch_HighlightWidth"
  const FwdSearchPermanentKey: string := "ForwardSearch_HighlightPermanent"

  /** Keys of a history entry (the window, toc and display-mode keys are
      shared with the global section). */
  const FileKey: string := "File"
  const DecryptionKeyKey: string := "Decryption Key"
  const UseGlobalValuesKey: string := "UseGlobalValues"
  const PageNoKey: string := "Page"
  const RotationKey: string := "Rotation"
  const ScrollXKey: string := "Scroll X2"
  const ScrollYKey: string := "Scroll Y2"
  const TocStateKey: string := "TocToggles"

  /** The keys a full-form entry may carry besides the file path and the
      decryption key. */
  const OverrideKeys: seq<string> :=
    [DisplayModeKey, PageNoKey, RotationKey, ScrollXKey, ScrollYKey, WindowStateKey,
     WindowXKey, WindowYKey, WindowDxKey, WindowDyKey, ShowTocKey, TocDxKey,
     ZoomVirtualKey, TocStateKey]

  /** How many history entries a "recent files" menu shows. */
  const MaxRecentFilesInMenu: int := 10

  // ---------------------------------------------------------- collaborators

  /** What the codec calls but does not define: the display-mode name
      tables, the zoom text conversions, the tree's text codec and the file
      system. */
  datatype Env = Env(
    modeName: DisplayMode -> Option<string>,      // DisplayModeNameFromEnum
    modeFromName: string -> Option<DisplayMode>,  // DisplayModeEnumFromName
    formatZoom: real -> string,                   // str_printf("%.4f", zoom)
    parseZoom: string -> real,                    // (float)atof(txt)
    decodeTree: string -> Option<Node>,           // BencObj::Decode
    encodeTree: Node -> string,                   // BencDict::Encode
    readAll: string -> Option<string>,            // file_read_all
    writeAll: (string, string) -> bool)           // write_to_file

  // --------------------------------------------------- values as tree nodes

  /** `Add(key, int)`: an integer field becomes an integer node. */
  function IntNode(x: int32): Node
  {
    BInt(x as int64)
  }

  /** `Add(key, bool)`: a flag becomes the integer 0 or 1. */
  function BoolNode(b: bool): Node
  {
    BInt(if b then 1 else 0)
  }

  /** A string field that is written only when it is not null. */
  function OptString(key: string, s: Option<string>): Dict
  {
    if s.Some? then [Pair(key, BString(s.value))] else []
  }

  // ------------------------------------------------------- field helpers

  /** `dict_get_int`: the integer under `key`, cast to `int`, or `value`
      untouched when the key is absent or holds another kind of node. */
  function DictGetInt(d: Dict, key: string, value: int32): (r: int32)
    ensures Lookup(d, key).Some? && Lookup(d, key).value.BInt? ==>
      r == ToInt32(Lookup(d, key).value.n as int)
    ensures !(Lookup(d, key).Some? && Lookup(d, key).value.BInt?) ==> r == value
  {
    match GetInt(d, key)
    case Some(v) => ToInt32(v as int)
    case None => value
  }

  /** `dict_get_bool`: true exactly when the integer under `key` is not 0;
      `value` untouched when there is no integer under `key`. */
  function DictGetBool(d: Dict, key: string, value: bool): (r: bool)
    ensures Lookup(d, key).Some? && Lookup(d, key).value.BInt? ==>
      (r <==> Lookup(d, key).value.n != 0)
    ensures !(Lookup(d, key).Some? && Lookup(d, key).value.BInt?) ==> r == value
  {
    match GetInt(d, key)
    case Some(v) => v != 0
    case None => value
  }

  /** `dict_get_str(dict, key)`: the string under `key`, or null when the
      key is absent or holds another kind of node. */
  function DictGetStr(d: Dict, key: string): (r: Option<string>)
    ensures r.Some? <==> Lookup(d, key).Some? && Lookup(d, key).value.BString?
    ensures r.Some? ==> Lookup(d, key) == Some(BString(r.value))
  {
    GetString(d, key)
  }

  /** `dict_get_str(dict, key, value)` and `dict_get_tstr`: replace `value`
      by the string under `key`, or leave it untouched. */
  function DictGetStrInto(d: Dict, key: string, value: Option<string>): (r: Option<string>)
    ensures Lookup(d, key).Some? && Lookup(d, key).value.BString? ==>
      r == Some(Lookup(d, key).value.s)
    ensures !(Lookup(d, key).Some? && Lookup(d, key).value.BString?) ==> r == value
  {
    match DictGetStr(d, key)
    case Some(s) => Some(s)
    case None => value
  }

  /** `DisplayModeEnumFromName(txt, &mode)`: the mode named `txt`, or `mode`
      untouched when no mode has that name. */
  function ModeFromName(env: Env, txt: string, mode: DisplayMode): (r: DisplayMode)
    ensures env.modeFromName(txt).Some? ==> r == env.modeFromName(txt).value
    ensures env.modeFromName(txt).None? ==> r == mode
  {
    match env.modeFromName(txt)
    case Some(m) => m
    case None => mode
  }

  /** A display-mode field read from its name under `key`. */
  function ModeField(d: Dict, key: string, mode: DisplayMode, env: Env): (r: DisplayMode)
    ensures !(Lookup(d, key).Some? && Lookup(d, key).value.BString?) ==> r == mode
    ensures Lookup(d, key).Some? && Lookup(d, key).value.BString? ==>
      r == ModeFromName(env, Lookup(d, key).value.s, mode)
    ensures r != mode ==> env.modeFromName(DictGetStr(d, key).value) == Some(r)
  {
    match DictGetStr(d, key)
    case Some(txt) => ModeFromName(env, txt, mode)
    case None => mode
  }

  /** A zoom field read from its text under `key`. */
  function ZoomField(d: Dict, key: string, zoom: real, env: Env): (r: real)
    ensures !(Lookup(d, key).Some? && Lookup(d, key).value.BString?) ==> r == zoom
    ensures Lookup(d, key).Some? && Lookup(d, key).value.BString? ==>
      r == env.parseZoom(Lookup(d, key).value.s)
  {
    match DictGetStr(d, key)
    case Some(txt) => env.parseZoom(txt)
    case None => zoom
  }

  // -------------------------------------------------- writing: the tree

  /** The first flags of the global section: toolbar, toc pane and the
      file-association answers. */
  function GlobalFlags(p: GlobalPrefsData): Dict
  {
    [Pair(ShowToolbarKey, BoolNode(p.showToolbar)),
     Pair(ShowTocKey, BoolNode(p.showToc)),
     Pair(TocDxKey, IntNode(p.tocDx)),
     Pair(PdfAssociateDontAskKey, BoolNode(p.pdfAssociateDontAskAgain)),
     Pair(PdfAssociateAssociateKey, BoolNode(p.pdfAssociateShouldAssociate))]
  }

  /** The behaviour options of the global section. */
  function GlobalOptions(p: GlobalPrefsData): Dict
  {
    [Pair(BgColorKey, IntNode(p.bgColor)),
     Pair(EscToExitKey, BoolNode(p.escToExit)),
     Pair(EnableAutoUpdateKey, BoolNode(p.enableAutoUpdate)),
     Pair(RememberOpenedFilesKey, BoolNode(p.rememberOpenedFiles)),
     Pair(GlobalPrefsOnlyKey, BoolNode(p.globalPrefsOnly))]
  }

  /** The default view and the window placement. The display-mode name is
      passed straight to `Add`, so the source needs it to exist. */
  function GlobalView(p: GlobalPrefsData, env: Env): Dict
    requires env.modeName(p.defaultDisplayMode).Some?
  {
    [Pair(DisplayModeKey, BString(env.modeName(p.defaultDisplayMode).value)),
     Pair(ZoomVirtualKey, BString(env.formatZoom(p.defaultZoom))),
     Pair(WindowStateKey, IntNode(p.windowState)),
     Pair(WindowXKey, IntNode(p.windowX)),
     Pair(WindowYKey, IntNode(p.windowY)),
     Pair(WindowDxKey, IntNode(p.windowDx)),
     Pair(WindowDyKey, IntNode(p.windowDy))]
  }

  /** The inverse-search and update settings; each string only when it is
      not null. */
  function GlobalExtras(p: GlobalPrefsData): Dict
  {
    OptString(InverseSearchKey, p.inverseSearchCmdLine)
    + [Pair(EnableTeXEnhancementsKey, BoolNode(p.enableTeXEnhancements))]
    + OptString(VersionToSkipKey, p.versionToSkip)
    + OptString(LastUpdateKey, p.lastUpdateTime)
  }

  /** The language and the forward-search highlight. */
  function GlobalTail(p: GlobalPrefsData): Dict
  {
    [Pair(UILanguageKey, BString(p.currentLanguage)),
     Pair(FwdSearchOffsetKey, IntNode(p.fwdsearchOffset)),
     Pair(FwdSearchColorKey, IntNode(p.fwdsearchColor)),
     Pair(FwdSearchWidthKey, IntNode(p.fwdsearchWidth)),
     Pair(FwdSearchPermanentKey, BoolNode(p.fwdsearchPermanent))]
  }

  /** The dictionary `Prefs_SerializeGlobal` builds, key by key in the
      order of its `Add` calls. */
  function GlobalDict(p: GlobalPrefsData, env: Env): (r: Dict)
    requires env.modeName(p.defaultDisplayMode).Some?
  {
    GlobalFlags(p) + GlobalOptions(p) + GlobalView(p, env) + GlobalExtras(p) + GlobalTail(p)
  }

  /** The toc ids of a length-prefixed buffer, as integer nodes: slots
      1 to count, never the count itself. */
  function TocIds(t: seq<int32>): (r: seq<Node>)
    requires TocStateValid(Some(t)) && t[0] > 0
    ensures |r| == t[0] as int
    ensures forall k :: 0 <= k < |r| ==> r[k] == BInt(t[k + 1] as int64)
  {
    seq(t[0] as int, k requires 0 <= k < t[0] as int => IntNode(t[k + 1]))
  }

  /** The toc key, present only when the buffer exists and its count is
      positive. */
  function TocPart(t: Option<seq<int32>>): Dict
    requires TocStateValid(t)
  {
    if t.Some? && t.value[0] > 0 then [Pair(TocStateKey, BArray(TocIds(t.value)))] else []
  }

  /** The keys of an abbreviated entry: the path, the decryption key when
      there is one, and the use-global-values flag. */
  function AbbreviatedKeys(hasKey: bool): seq<string>
  {
    [FileKey] + (if hasKey then [DecryptionKeyKey] else []) + [UseGlobalValuesKey]
  }

  /** The view position of a full-form entry: page, rotation and scroll. */
  function ViewPart(e: DisplayStateData): Dict
  {
    [Pair(PageNoKey, IntNode(e.pageNo)),
     Pair(RotationKey, IntNode(e.rotation)),
     Pair(ScrollXKey, IntNode(e.scrollX)),
     Pair(ScrollYKey, IntNode(e.scrollY))]
  }

  /** The window placement of a full-form entry. */
  function WindowPart(e: DisplayStateData): Dict
  {
    [Pair(WindowStateKey, IntNode(e.windowState)),
     Pair(WindowXKey, IntNode(e.windowX)),
     Pair(WindowYKey, IntNode(e.windowY)),
     Pair(WindowDxKey, IntNode(e.windowDx)),
     Pair(WindowDyKey, IntNode(e.windowDy))]
  }

  /** The toc pane and the zoom of a full-form entry. */
  function PanePart(e: DisplayStateData, env: Env): Dict
  {
    [Pair(ShowTocKey, BoolNode(e.showToc)),
     Pair(TocDxKey, IntNode(e.tocDx)),
     Pair(ZoomVirtualKey, BString(env.formatZoom(e.zoomVirtual)))]
  }

  /** The path and, when there is one, the decryption key. */
  function EntryHead(e: DisplayStateData): Dict
  {
    [Pair(FileKey, BString(e.filePath))] + OptString(DecryptionKeyKey, e.decryptionKey)
  }

  /** The dictionary `DisplayState_Serialize` builds for one entry, key by
      key in the order of its `Add` calls. In globals-only mode, or when the
      entry uses the global values, only the abbreviated form is written. */
  function EntryDict(e: DisplayStateData, globalPrefsOnly: bool, env: Env): Dict
    requires TocStateValid(e.tocState)
  {
    if globalPrefsOnly || e.useGlobalValues then
      EntryHead(e) + [Pair(UseGlobalValuesKey, BoolNode(true))]
    else
      EntryHead(e) + OptString(DisplayModeKey, env.modeName(e.displayMode))
      + ViewPart(e) + WindowPart(e) + PanePart(e, env) + TocPart(e.tocState)
  }

  /** How many history entries `FileHistoryList_Serialize` writes at most. */
  function HistoryLimit(globalPrefsOnly: bool): (r: int)
    ensures MaxRecentFilesInMenu <= r
    ensures globalPrefsOnly <==> r == MaxRecentFilesInMenu
    ensures !globalPrefsOnly ==> r == IntMax
  {
    if globalPrefsOnly then MaxRecentFilesInMenu else IntMax
  }

  function Min(a: int, b: int): int
  {
    if a <= b then a else b
  }

  /** The array `FileHistoryList_Serialize` builds: the first entries of
      the list, up to the limit, each as its dictionary, in list order. */
  function HistoryItems(es: seq<DisplayStateData>, globalPrefsOnly: bool, env: Env): (r: seq<Node>)
    requires AllTocStatesValid(es)
    ensures |r| == Min(|es|, HistoryLimit(globalPrefsOnly))
    ensures forall i :: 0 <= i < |r| ==> r[i] == BDict(EntryDict(es[i], globalPrefsOnly, env))
  {
    var n := Min(|es|, HistoryLimit(globalPrefsOnly));
    seq(n, i requires 0 <= i < n => BDict(EntryDict(es[i], globalPrefsOnly, env)))
  }

  /** The root `Prefs_Serialize` encodes: the global section under "gp" and
      the history, truncated by the record's own globals-only flag. */
  function PrefsTree(p: GlobalPrefsData, es: seq<DisplayStateData>, env: Env): (r: Node)
    requires env.modeName(p.defaultDisplayMode).Some? && AllTocStatesValid(es)
    ensures r.BDict? && Keys(r.pairs) == [GlobalPrefsKey, FileHistoryKey]
  {
    BDict([Pair(GlobalPrefsKey, BDict(GlobalDict(p, env)))]
          + [Pair(FileHistoryKey, BArray(HistoryItems(es, p.globalPrefsOnly, env)))])
  }

  // -------------------------------------------------- reading: the tree

  /** The toc buffer `DisplayState_Deserialize` makes of an array of n
      nodes: n + 1 slots, slot 0 the count; an element that is not an
      integer is not skipped, its slot stays 0. */
  function TocSlots(items: seq<Node>): (t: seq<int32>)
    ensures |t| == |items| + 1 && t[0] == ToInt32(|items|)
    ensures forall k :: 0 <= k < |items| && items[k].BInt? ==> t[k + 1] == ToInt32(items[k].n as int)
    ensures forall k :: 0 <= k < |items| && !items[k].BInt? ==> t[k + 1] == 0
    ensures TocStateValid(Some(t))
  {
    [ToInt32(|items|)]
    + seq(|items|, k requires 0 <= k < |items| =>
        if items[k].BInt? then ToInt32(items[k].n as int) else 0)
  }

  /** The per-document fields of a full-form entry, each read on its own
      over the fields of `base`. */
  function DecodeOverrides(d: Dict, base: DisplayStateData, env: Env): (r: DisplayStateData)
    ensures r.filePath == base.filePath && r.decryptionKey == base.decryptionKey
    ensures d == [] ==> r == base
    ensures TocStateValid(base.tocState) ==> TocStateValid(r.tocState)
  {
    base.(
      displayMode := ModeField(d, DisplayModeKey, base.displayMode, env),
      pageNo := DictGetInt(d, PageNoKey, base.pageNo),
      rotation := DictGetInt(d, RotationKey, base.rotation),
      scrollX := DictGetInt(d, ScrollXKey, base.scrollX),
      scrollY := DictGetInt(d, ScrollYKey, base.scrollY),
      windowState := DictGetInt(d, WindowStateKey, base.windowState),
      windowX := DictGetInt(d, WindowXKey, base.windowX),
      windowY := DictGetInt(d, WindowYKey, base.windowY),
      windowDx := DictGetInt(d, WindowDxKey, base.windowDx),
      windowDy := DictGetInt(d, WindowDyKey, base.windowDy),
      showToc := DictGetBool(d, ShowTocKey, base.showToc),
      tocDx := DictGetInt(d, TocDxKey, base.tocDx),
      zoomVirtual := ZoomField(d, ZoomVirtualKey, base.zoomVirtual, env),
      useGlobalValues := DictGetBool(d, UseGlobalValuesKey, base.useGlobalValues),
      tocState := match GetArray(d, TocStateKey)
                  case Some(items) => Some(TocSlots(items))
                  case None => base.tocState)
  }

  /** The abbreviated entry: a fresh state with only the path, the key and
      the use-global-values flag set. */
  function Abbreviated(path: string, key: Option<string>): (r: DisplayStateData)
    ensures r.filePath == path && r.decryptionKey == key && r.useGlobalValues
    ensures r.tocState.None? && r.displayMode == FreshState.displayMode
    ensures r.(filePath := "", decryptionKey := None, useGlobalValues := false) == FreshState
  {
    FreshState.(filePath := path, decryptionKey := key, useGlobalValues := true)
  }

  /** What `DisplayState_Deserialize` makes of one dictionary: nothing when
      there is no string under the file key; in globals-only mode the
      abbreviated entry whatever else the dictionary holds; otherwise every
      per-document field read over a fresh state. */
  function DecodeEntry(d: Dict, globalPrefsOnly: bool, env: Env): (r: Option<DisplayStateData>)
    ensures r.None? <==> DictGetStr(d, FileKey).None?
    ensures r.Some? ==>
      r.value.filePath == DictGetStr(d, FileKey).value &&
      r.value.decryptionKey == DictGetStr(d, DecryptionKeyKey) &&
      TocStateValid(r.value.tocState)
    ensures r.Some? && globalPrefsOnly ==>
      r.value == Abbreviated(r.value.filePath, r.value.decryptionKey)
  {
    match DictGetStrInto(d, FileKey, None)
    case None => None
    case Some(path) =>
      var base := FreshState.(filePath := path,
                              decryptionKey := DictGetStrInto(d, DecryptionKeyKey, FreshState.decryptionKey));
      if globalPrefsOnly then Some(base.(useGlobalValues := true))
      else Some(DecodeOverrides(d, base, env))
  }

  /** What one element of the history array contributes: its entry when it
      is a dictionary that decodes, nothing otherwise. */
  function DecodeItem(n: Node, globalPrefsOnly: bool, env: Env): (r: seq<DisplayStateData>)
    ensures |r| <= 1
    ensures |r| == 1 <==> n.BDict? && DecodeEntry(n.pairs, globalPrefsOnly, env).Some?
    ensures |r| == 1 ==> r[0] == DecodeEntry(n.pairs, globalPrefsOnly, env).value
  {
    if n.BDict? then
      match DecodeEntry(n.pairs, globalPrefsOnly, env)
      case Some(e) => [e]
      case None => []
    else []
  }

  /** The entries the history loop appends, in array order. */
  function DecodeHistory(items: seq<Node>, globalPrefsOnly: bool, env: Env): (r: seq<DisplayStateData>)
    ensures |r| <= |items|
    ensures AllTocStatesValid(r)
  {
    if |items| == 0 then []
    else DecodeHistory(items[..|items| - 1], globalPrefsOnly, env)
         + DecodeItem(items[|items| - 1], globalPrefsOnly, env)
  }

  /** What `Prefs_Deserialize` does to the global record: every field read
      on its own over its prior value. The language name is not stored in
      the record (it goes to the language selector instead). */
  function DecodeGlobal(g: Dict, prior: GlobalPrefsData, env: Env): (r: GlobalPrefsData)
    ensures r.currentLanguage == prior.currentLanguage
  {
    prior.(
      showToolbar := DictGetBool(g, ShowToolbarKey, prior.showToolbar),
      showToc := DictGetBool(g, ShowTocKey, prior.showToc),
      tocDx := DictGetInt(g, TocDxKey, prior.tocDx),
      pdfAssociateDontAskAgain := DictGetBool(g, PdfAssociateDontAskKey, prior.pdfAssociateDontAskAgain),
      pdfAssociateShouldAssociate := DictGetBool(g, PdfAssociateAssociateKey, prior.pdfAssociateShouldAssociate),
      escToExit := DictGetBool(g, EscToExitKey, prior.escToExit),
      bgColor := DictGetInt(g, BgColorKey, prior.bgColor),
      enableAutoUpdate := DictGetBool(g, EnableAutoUpdateKey, prior.enableAutoUpdate),
      rememberOpenedFiles := DictGetBool(g, RememberOpenedFilesKey, prior.rememberOpenedFiles),
      globalPrefsOnly := DictGetBool(g, GlobalPrefsOnlyKey, prior.globalPrefsOnly),
      defaultDisplayMode := ModeField(g, DisplayModeKey, prior.defaultDisplayMode, env),
      defaultZoom := ZoomField(g, ZoomVirtualKey, prior.defaultZoom, env),
      windowState := DictGetInt(g, WindowStateKey, prior.windowState),
      windowX := DictGetInt(g, WindowXKey, prior.windowX),
      windowY := DictGetInt(g, WindowYKey, prior.windowY),
      windowDx := DictGetInt(g, WindowDxKey, prior.windowDx),
      windowDy := DictGetInt(g, WindowDyKey, prior.windowDy),
      inverseSearchCmdLine := DictGetStrInto(g, InverseSearchKey, prior.inverseSearchCmdLine),
      enableTeXEnhancements := DictGetBool(g, EnableTeXEnhancementsKey, prior.enableTeXEnhancements),
      versionToSkip := DictGetStrInto(g, VersionToSkipKey, prior.versionToSkip),
      lastUpdateTime := DictGetStrInto(g, LastUpdateKey, prior.lastUpdateTime),
      fwdsearchOffset := DictGetInt(g, FwdSearchOffsetKey, prior.fwdsearchOffset),
      fwdsearchColor := DictGetInt(g, FwdSearchColorKey, prior.fwdsearchColor),
      fwdsearchWidth := DictGetInt(g, FwdSearchWidthKey, prior.fwdsearchWidth),
      fwdsearchPermanent := DictGetBool(g, FwdSearchPermanentKey, prior.fwdsearchPermanent))
  }

  /** The outcome of a load: its verdict, the global record afterwards, the
      entries appended to the history, and the arguments of each call to
      the language selector (`CurrLangNameSet`). */
  datatype LoadResult = LoadResult(
    ok: bool,
    prefs: GlobalPrefsData,
    appended: seq<DisplayStateData>,
    langCalls: seq<Option<string>>)

  /** A failed load that touched nothing. */
  function NothingLoaded(prior: GlobalPrefsData): LoadResult
  {
    LoadResult(false, prior, [], [])
  }

  /** The root dictionary of a preferences text, if it decodes to one. */
  function RootDict(text: string, env: Env): (r: Option<Dict>)
    ensures r.Some? <==> env.decodeTree(text).Some? && env.decodeTree(text).value.BDict?
    ensures r.Some? ==> env.decodeTree(text) == Some(BDict(r.value))
  {
    match env.decodeTree(text)
    case Some(BDict(pairs)) => Some(pairs)
    case _ => None
  }

  /** The "gp" dictionary of a preferences text, if there is one. */
  function GlobalSection(text: string, env: Env): (r: Option<Dict>)
    ensures r.Some? <==>
      RootDict(text, env).Some? && Lookup(RootDict(text, env).value, GlobalPrefsKey).Some? &&
      Lookup(RootDict(text, env).value, GlobalPrefsKey).value.BDict?
    ensures r.Some? ==> Lookup(RootDict(text, env).value, GlobalPrefsKey) == Some(BDict(r.value))
  {
    match RootDict(text, env)
    case Some(root) => GetDict(root, GlobalPrefsKey)
    case None => None
  }

  /** The history array of a preferences text, if there is one. */
  function HistorySection(text: string, env: Env): (r: Option<seq<Node>>)
    ensures r.Some? <==>
      RootDict(text, env).Some? && Lookup(RootDict(text, env).value, FileHistoryKey).Some? &&
      Lookup(RootDict(text, env).value, FileHistoryKey).value.BArray?
    ensures r.Some? ==> Lookup(RootDict(text, env).value, FileHistoryKey) == Some(BArray(r.value))
  {
    match RootDict(text, env)
    case Some(root) => GetArray(root, FileHistoryKey)
    case None => None
  }

  /** What `Prefs_Deserialize` does with one text. */
  function DecodePrefs(text: string, prior: GlobalPrefsData, env: Env): (r: LoadResult)
    ensures GlobalSection(text, env).None? ==> r == NothingLoaded(prior)
    ensures GlobalSection(text, env).Some? ==>
      r.prefs == DecodeGlobal(GlobalSection(text, env).value, prior, env) &&
      r.langCalls == [DictGetStr(GlobalSection(text, env).value, UILanguageKey)]
    ensures r.ok <==> GlobalSection(text, env).Some? && HistorySection(text, env).Some?
    ensures !r.ok ==> r.appended == []
    ensures r.ok ==>
      r.appended == DecodeHistory(HistorySection(text, env).value, r.prefs.globalPrefsOnly, env)
  {
    match GlobalSection(text, env)
    case None => NothingLoaded(prior)
    case Some(g) =>
      var prefs := DecodeGlobal(g, prior, env);
      var calls := [DictGetStr(g, UILanguageKey)];
      match HistorySection(text, env)
      case None => LoadResult(false, prefs, [], calls)
      case Some(items) =>
        LoadResult(true, prefs, DecodeHistory(items, prefs.globalPrefsOnly, env), calls)
  }

  /** `str_empty`: a null text, or one whose first character ends it. */
  function TextEmpty(t: Option<string>): (r: bool)
    ensures t.None? || t == Some([]) ==> r
    ensures !r ==> t.Some? && |t.value| > 0 && t.value[0] != '\0'
    ensures t.Some? && |t.value| > 0 && t.value[0] == '\0' ==> r
  {
    t.None? || |t.value| == 0 || t.value[0] == '\0'
  }

  /** What `Prefs::Load` does: nothing without a path or with an empty or
      unreadable file; otherwise whatever decoding the file's text does. */
  function LoadSpec(filepath: Option<string>, prior: GlobalPrefsData, env: Env): (r: LoadResult)
    ensures filepath.None? ==> r == NothingLoaded(prior)
    ensures filepath.Some? && TextEmpty(env.readAll(filepath.value)) ==> r == NothingLoaded(prior)
    ensures filepath.Some? && !TextEmpty(env.readAll(filepath.value)) ==>
      r == DecodePrefs(env.readAll(filepath.value).value, prior, env)
  {
    if filepath.None? then NothingLoaded(prior)
    else
      var text := env.readAll(filepath.value);
      if TextEmpty(text) then NothingLoaded(prior)
      else DecodePrefs(text.value, prior, env)
  }

  // ------------------------------------------------------- the methods

  /** A string field added to `prefs` only when it is not null. */
  method AddIfPresent(prefs: Dict, key: string, s: Option<string>) returns (r: Dict)
    ensures r == prefs + OptString(key, s)
  {
    r := prefs;
    if s.Some? {
      r := r + [Pair(key, BString(s.value))];
    }
  }

  /** `Prefs_SerializeGlobal`. */
  method PrefsSerializeGlobal(globalPrefs: SerializableGlobalPrefs, env: Env) returns (r: Node)
    requires env.modeName(globalPrefs.data.defaultDisplayMode).Some?
    ensures r == BDict(GlobalDict(globalPrefs.data, env))
  {
    var p := globalPrefs.data;
    var prefs: Dict := [Pair(ShowToolbarKey, BoolNode(p.showToolbar))];
    prefs := prefs + [Pair(ShowTocKey, BoolNode(p.showToc))];
    prefs := prefs + [Pair(TocDxKey, IntNode(p.tocDx))];
    prefs := prefs + [Pair(PdfAssociateDontAskKey, BoolNode(p.pdfAssociateDontAskAgain))];
    prefs := prefs + [Pair(PdfAssociateAssociateKey, BoolNode(p.pdfAssociateShouldAssociate))];
    assert prefs == GlobalFlags(p);

    prefs := prefs + [Pair(BgColorKey, IntNode(p.bgColor))];
    prefs := prefs + [Pair(EscToExitKey, BoolNode(p.escToExit))];
    prefs := prefs + [Pair(EnableAutoUpdateKey, BoolNode(p.enableAutoUpdate))];
    prefs := prefs + [Pair(RememberOpenedFilesKey, BoolNode(p.rememberOpenedFiles))];
    prefs := prefs + [Pair(GlobalPrefsOnlyKey, BoolNode(p.globalPrefsOnly))];
    assert prefs == GlobalFlags(p) + GlobalOptions(p);
    ghost var options := prefs;

    var txt := env.modeName(p.defaultDisplayMode).value;
    prefs := prefs + [Pair(DisplayModeKey, BString(txt))];

    txt := env.formatZoom(p.defaultZoom);
    prefs := prefs + [Pair(ZoomVirtualKey, BString(txt))];
    prefs := prefs + [Pair(WindowStateKey, IntNode(p.windowState))];
    prefs := prefs + [Pair(WindowXKey, IntNode(p.windowX))];
    prefs := prefs + [Pair(WindowYKey, IntNode(p.windowY))];
    prefs := prefs + [Pair(WindowDxKey, IntNode(p.windowDx))];
    prefs := prefs + [Pair(WindowDyKey, IntNode(p.windowDy))];
    assert prefs == options + GlobalView(p, env);
    ghost var view := prefs;

    prefs := AddIfPresent(prefs, InverseSearchKey, p.inverseSearchCmdLine);
    prefs := prefs + [Pair(EnableTeXEnhancementsKey, BoolNode(p.enableTeXEnhancements))];
    prefs := AddIfPresent(prefs, VersionToSkipKey, p.versionToSkip);
    prefs := AddIfPresent(prefs, LastUpdateKey, p.lastUpdateTime);
    assert prefs == view + GlobalExtras(p);
    ghost var extras := prefs;
    prefs := prefs + [Pair(UILanguageKey, BString(p.currentLanguage))];
    prefs := prefs + [Pair(FwdSearchOffsetKey, IntNode(p.fwdsearchOffset))];
    prefs := prefs + [Pair(FwdSearchColorKey, IntNode(p.fwdsearchColor))];
    prefs := prefs + [Pair(FwdSearchWidthKey, IntNode(p.fwdsearchWidth))];
    prefs := prefs + [Pair(FwdSearchPermanentKey, BoolNode(p.fwdsearchPermanent))];
    assert prefs == extras + GlobalTail(p);
    r := BDict(prefs);
  }

  /** `DisplayState_Serialize`. */
  method DisplayStateSerialize(ds: DisplayState, globalPrefsOnly: bool, env: Env) returns (r: Node)
    requires ds.Valid()
    ensures r == BDict(EntryDict(ds.data, globalPrefsOnly, env))
  {
    var st := ds.data;
    var prefs: Dict := [Pair(FileKey, BString(st.filePath))];
    prefs := AddIfPresent(prefs, DecryptionKeyKey, st.decryptionKey);

    if globalPrefsOnly || st.useGlobalValues {
      prefs := prefs + [Pair(UseGlobalValuesKey, BoolNode(true))];
      return BDict(prefs);
    }

    var txt := env.modeName(st.displayMode);
    prefs := AddIfPresent(prefs, DisplayModeKey, txt);
    ghost var head := prefs;
    prefs := prefs + [Pair(PageNoKey, IntNode(st.pageNo))];
    prefs := prefs + [Pair(RotationKey, IntNode(st.rotation))];
    prefs := prefs + [Pair(ScrollXKey, IntNode(st.scrollX))];
    prefs := prefs + [Pair(ScrollYKey, IntNode(st.scrollY))];
    assert prefs == head + ViewPart(st);
    ghost var view := prefs;
    prefs := prefs + [Pair(WindowStateKey, IntNode(st.windowState))];
    prefs := prefs + [Pair(WindowXKey, IntNode(st.windowX))];
    prefs := prefs + [Pair(WindowYKey, IntNode(st.windowY))];
    prefs := prefs + [Pair(WindowDxKey, IntNode(st.windowDx))];
    prefs := prefs + [Pair(WindowDyKey, IntNode(st.windowDy))];
    assert prefs == view + WindowPart(st);
    ghost var window := prefs;

    prefs := prefs + [Pair(ShowTocKey, BoolNode(st.showToc))];
    prefs := prefs + [Pair(TocDxKey, IntNode(st.tocDx))];

    prefs := prefs + [Pair(ZoomVirtualKey, BString(env.formatZoom(st.zoomVirtual)))];
    assert prefs == window + PanePart(st, env);

    if st.tocState.Some? && st.tocState.value[0] > 0 {
      var t := st.tocState.value;
      var tocState: seq<Node> := [];
      for i := 1 to t[0] as int + 1
        invariant |tocState| == i - 1
        invariant forall k :: 0 <= k < i - 1 ==> tocState[k] == IntNode(t[k + 1])
      {
        tocState := tocState + [IntNode(t[i])];
      }
      assert tocState == TocIds(t);
      prefs := prefs + [Pair(TocStateKey, BArray(tocState))];
    }
    r := BDict(prefs);
  }

  /** `FileHistoryList_Serialize`: one dictionary per entry, in list order,
      stopping at the end of the list or at the limit. */
  method FileHistoryListSerialize(fileHistory: FileHistoryList, globalPrefsOnly: bool, env: Env)
    returns (r: Node)
    requires fileHistory.Valid()
    ensures r == BArray(HistoryItems(fileHistory.Entries(), globalPrefsOnly, env))
  {
    var arr: seq<Node> := [];
    var maxRememberedItems := if globalPrefsOnly then MaxRecentFilesInMenu else IntMax;
    var index := 0;
    while index < maxRememberedItems
      invariant 0 <= index <= maxRememberedItems && index <= |fileHistory.states|
      invariant |arr| == index
      invariant forall k :: 0 <= k < index ==>
        arr[k] == BDict(EntryDict(fileHistory.Entries()[k], globalPrefsOnly, env))
      decreases maxRememberedItems - index
    {
      var state := fileHistory.Get(index);
      if state == null {
        break;
      }
      assert fileHistory.Entries()[index] == state.data;
      var obj := DisplayStateSerialize(state, globalPrefsOnly, env);
      arr := arr + [obj];
      index := index + 1;
    }
    assert index == Min(|fileHistory.states|, HistoryLimit(globalPrefsOnly));
    r := BArray(arr);
  }

  /** `Prefs_Serialize`: the text of the whole preferences tree. */
  method PrefsSerialize(globalPrefs: SerializableGlobalPrefs, root: FileHistoryList, env: Env)
    returns (data: string)
    requires env.modeName(globalPrefs.data.defaultDisplayMode).Some? && root.Valid()
    ensures data == env.encodeTree(PrefsTree(globalPrefs.data, root.Entries(), env))
  {
    var global := PrefsSerializeGlobal(globalPrefs, env);
    var prefs: Dict := [Pair(GlobalPrefsKey, global)];
    var fileHistory := FileHistoryListSerialize(root, globalPrefs.data.globalPrefsOnly, env);
    prefs := prefs + [Pair(FileHistoryKey, fileHistory)];
    data := env.encodeTree(BDict(prefs));
  }

  /** `DisplayState_Deserialize`: a fresh state read from one dictionary,
      or null when the dictionary has no file path. */
  method DisplayStateDeserialize(dict: Dict, globalPrefsOnly: bool, env: Env)
    returns (ds: DisplayState?)
    ensures ds == null <==> DecodeEntry(dict, globalPrefsOnly, env).None?
    ensures ds != null ==>
      fresh(ds) && ds.Valid() && ds.data == DecodeEntry(dict, globalPrefsOnly, env).value
  {
    ds := new DisplayState();
    // the fresh state's file path is null until the file key is read
    var filePath := DictGetStrInto(dict, FileKey, None);
    if filePath.None? {
      return null;
    }
    ds.data := ds.data.(filePath := filePath.value);

    ds.data := ds.data.(decryptionKey := DictGetStrInto(dict, DecryptionKeyKey, ds.data.decryptionKey));
    if globalPrefsOnly {
      ds.data := ds.data.(useGlobalValues := true);
      return ds;
    }

    var txt := DictGetStr(dict, DisplayModeKey);
    if txt.Some? {
      ds.data := ds.data.(displayMode := ModeFromName(env, txt.value, ds.data.displayMode));
    }
    ds.data := ds.data.(pageNo := DictGetInt(dict, PageNoKey, ds.data.pageNo));
    ds.data := ds.data.(rotation := DictGetInt(dict, RotationKey, ds.data.rotation));
    ds.data := ds.data.(scrollX := DictGetInt(dict, ScrollXKey, ds.data.scrollX));
    ds.data := ds.data.(scrollY := DictGetInt(dict, ScrollYKey, ds.data.scrollY));
    ds.data := ds.data.(windowState := DictGetInt(dict, WindowStateKey, ds.data.windowState));
    ds.data := ds.data.(windowX := DictGetInt(dict, WindowXKey, ds.data.windowX));
    ds.data := ds.data.(windowY := DictGetInt(dict, WindowYKey, ds.data.windowY));
    ds.data := ds.data.(windowDx := DictGetInt(dict, WindowDxKey, ds.data.windowDx));
    ds.data := ds.data.(windowDy := DictGetInt(dict, WindowDyKey, ds.data.windowDy));

    ds.data := ds.data.(showToc := DictGetBool(dict, ShowTocKey, ds.data.showToc));
    ds.data := ds.data.(tocDx := DictGetInt(dict, TocDxKey, ds.data.tocDx));

    txt := DictGetStr(dict, ZoomVirtualKey);
    if txt.Some? {
      ds.data := ds.data.(zoomVirtual := env.parseZoom(txt.value));
    }
    ds.data := ds.data.(useGlobalValues := DictGetBool(dict, UseGlobalValuesKey, ds.data.useGlobalValues));

    var tocState := GetArray(dict, TocStateKey);
    if tocState.Some? {
      var buf := TocStateDeserialize(tocState.value);
      ds.data := ds.data.(tocState := Some(buf));
    }
  }

  /** The toc loop of `DisplayState_Deserialize`: a buffer of n + 1 zeroed
      slots, slot 0 set to the element count, then each integer element
      copied into the slot after its index. */
  method TocStateDeserialize(items: seq<Node>) returns (t: seq<int32>)
    ensures t == TocSlots(items)
  {
    var len := |items|;
    var buf := new int32[len + 1](_ => 0);
    buf[0] := ToInt32(len);
    for i := 0 to len
      invariant buf[0] == ToInt32(len)
      invariant forall k :: 1 <= k <= i ==> buf[k] == TocSlots(items)[k]
      invariant forall k :: i < k <= len ==> buf[k] == 0
    {
      var intObj := ArrayGetInt(items, i);
      if intObj.Some? {
        buf[i + 1] := ToInt32(intObj.value as int);
      }
    }
    t := buf[..];
  }

  /** The part of `Prefs_Deserialize` that reads the "gp" dictionary into
      the global record, field by field in the source's order, and hands
      the language name to the language selector. */
  method ReadGlobalSection(gp: SerializableGlobalPrefs, global: Dict, env: Env)
    returns (langCalls: seq<Option<string>>)
    modifies gp
    ensures gp.data == DecodeGlobal(global, old(gp.data), env)
    ensures langCalls == [DictGetStr(global, UILanguageKey)]
  {
    var d := gp.data;
    d := d.(
      showToolbar := DictGetBool(global, ShowToolbarKey, d.showToolbar),
      showToc := DictGetBool(global, ShowTocKey, d.showToc),
      tocDx := DictGetInt(global, TocDxKey, d.tocDx),
      pdfAssociateDontAskAgain := DictGetBool(global, PdfAssociateDontAskKey, d.pdfAssociateDontAskAgain),
      pdfAssociateShouldAssociate := DictGetBool(global, PdfAssociateAssociateKey, d.pdfAssociateShouldAssociate));
    d := d.(
      escToExit := DictGetBool(global, EscToExitKey, d.escToExit),
      bgColor := DictGetInt(global, BgColorKey, d.bgColor),
      enableAutoUpdate := DictGetBool(global, EnableAutoUpdateKey, d.enableAutoUpdate),
      rememberOpenedFiles := DictGetBool(global, RememberOpenedFilesKey, d.rememberOpenedFiles),
      globalPrefsOnly := DictGetBool(global, GlobalPrefsOnlyKey, d.globalPrefsOnly));
    d := d.(
      defaultDisplayMode := ModeField(global, DisplayModeKey, d.defaultDisplayMode, env),
      defaultZoom := ZoomField(global, ZoomVirtualKey, d.defaultZoom, env),
      windowState := DictGetInt(global, WindowStateKey, d.windowState));
    d := d.(
      windowX := DictGetInt(global, WindowXKey, d.windowX),
      windowY := DictGetInt(global, WindowYKey, d.windowY),
      windowDx := DictGetInt(global, WindowDxKey, d.windowDx),
      windowDy := DictGetInt(global, WindowDyKey, d.windowDy));
    d := d.(
      inverseSearchCmdLine := DictGetStrInto(global, InverseSearchKey, d.inverseSearchCmdLine),
      enableTeXEnhancements := DictGetBool(global, EnableTeXEnhancementsKey, d.enableTeXEnhancements),
      versionToSkip := DictGetStrInto(global, VersionToSkipKey, d.versionToSkip),
      lastUpdateTime := DictGetStrInto(global, LastUpdateKey, d.lastUpdateTime));
    var txt := DictGetStr(global, UILanguageKey);
    langCalls := [txt];  // CurrLangNameSet(txt)
    d := d.(
      fwdsearchOffset := DictGetInt(global, FwdSearchOffsetKey, d.fwdsearchOffset),
      fwdsearchColor := DictGetInt(global, FwdSearchColorKey, d.fwdsearchColor),
      fwdsearchWidth := DictGetInt(global, FwdSearchWidthKey, d.fwdsearchWidth),
      fwdsearchPermanent := DictGetBool(global, FwdSearchPermanentKey, d.fwdsearchPermanent));
    gp.data := d;
  }

  /** `Prefs_Deserialize`: decode a text and read it into the global record
      and the history. It fails untouched when the root is not a dictionary
      or has no "gp" dictionary; it fails after updating the global record
      when the history array is missing. */
  method PrefsDeserialize(prefsTxt: string, globalPrefs: SerializableGlobalPrefs,
                          root: FileHistoryList, env: Env)
    returns (ok: bool, langCalls: seq<Option<string>>)
    modifies globalPrefs, root
    ensures var r := DecodePrefs(prefsTxt, old(globalPrefs.data), env);
      ok == r.ok && globalPrefs.data == r.prefs && langCalls == r.langCalls &&
      root.Entries() == old(root.Entries()) + r.appended
    ensures |old(root.states)| <= |root.states| &&
      root.states[..|old(root.states)|] == old(root.states)
  {
    var obj := env.decodeTree(prefsTxt);
    if !(obj.Some? && obj.value.BDict?) {
      return false, [];
    }
    var prefs := obj.value.pairs;
    var globalDict := GetDict(prefs, GlobalPrefsKey);
    if globalDict.None? {
      return false, [];
    }
    langCalls := ReadGlobalSection(globalPrefs, globalDict.value, env);

    var fileHistory := GetArray(prefs, FileHistoryKey);
    if fileHistory.None? {
      return false, langCalls;
    }
    AppendHistory(fileHistory.value, globalPrefs.data.globalPrefsOnly, root, env);
    ok := true;
  }

  /** The history loop of `Prefs_Deserialize`: every element that is a
      dictionary and decodes is appended to the list, in array order; the
      others are skipped. */
  method AppendHistory(items: seq<Node>, globalPrefsOnly: bool, root: FileHistoryList, env: Env)
    modifies root
    ensures root.Entries() == old(root.Entries()) + DecodeHistory(items, globalPrefsOnly, env)
    ensures |old(root.states)| <= |root.states| &&
      root.states[..|old(root.states)|] == old(root.states)
  {
    var dlen := |items|;
    for i := 0 to dlen
      invariant root.Entries() ==
        old(root.Entries()) + DecodeHistory(items[..i], globalPrefsOnly, env)
      invariant |old(root.states)| <= |root.states| &&
        root.states[..|old(root.states)|] == old(root.states)
    {
      DecodeHistorySnoc(items, i, globalPrefsOnly, env);
      AppendHistoryItem(items, i, globalPrefsOnly, root, env);
    }
    assert items[..dlen] == items;
  }

  /** The entries of the first i + 1 elements are those of the first i,
      then those of element i. */
  lemma DecodeHistorySnoc(items: seq<Node>, i: nat, globalPrefsOnly: bool, env: Env)
    requires i < |items|
    ensures DecodeHistory(items[..i + 1], globalPrefsOnly, env) ==
      DecodeHistory(items[..i], globalPrefsOnly, env) + DecodeItem(items[i], globalPrefsOnly, env)
  {
    assert items[..i + 1][..i] == items[..i];
  }

  /** One turn of the history loop of `Prefs_Deserialize`: element `i` is
      appended when it is a dictionary that decodes, and skipped otherwise. */
  method AppendHistoryItem(items: seq<Node>, i: nat, globalPrefsOnly: bool,
                           root: FileHistoryList, env: Env)
    requires i < |items|
    modifies root
    ensures root.Entries() == old(root.Entries()) + DecodeItem(items[i], globalPrefsOnly, env)
    ensures |old(root.states)| <= |root.states| &&
      root.states[..|old(root.states)|] == old(root.states)
    ensures forall k :: |old(root.states)| <= k < |root.states| ==> fresh(root.states[k])
  {
    var dict := ArrayGetDict(items, i);
    if dict.None? {
      return;
    }
    var state := DisplayStateDeserialize(dict.value, globalPrefsOnly, env);
    if state != null {
      root.Append(state);
    }
  }

  /** `Prefs::Load`, with the file read through `env.readAll`. */
  method Load(filepath: Option<string>, globalPrefs: SerializableGlobalPrefs,
              fileHistory: FileHistoryList, env: Env)
    returns (ok: bool, langCalls: seq<Option<string>>)
    modifies globalPrefs, fileHistory
    ensures var r := LoadSpec(filepath, old(globalPrefs.data), env);
      ok == r.ok && globalPrefs.data == r.prefs && langCalls == r.langCalls &&
      fileHistory.Entries() == old(fileHistory.Entries()) + r.appended
    ensures |old(fileHistory.states)| <= |fileHistory.states| &&
      fileHistory.states[..|old(fileHistory.states)|] == old(fileHistory.states)
  {
    ok, langCalls := false, [];
    if filepath.None? {
      return;
    }
    var prefsTxt := env.readAll(filepath.value);
    if !TextEmpty(prefsTxt) {
      ok, langCalls := PrefsDeserialize(prefsTxt.value, globalPrefs, fileHistory, env);
    }
  }

  /** `Prefs::Save`, with the file written through `env.writeAll`. */
  method Save(filepath: Option<string>, globalPrefs: SerializableGlobalPrefs,
              fileHistory: FileHistoryList, env: Env)
    returns (ok: bool)
    requires env.modeName(globalPrefs.data.defaultDisplayMode).Some? && fileHistory.Valid()
    ensures ok == (filepath.Some? &&
      env.writeAll(filepath.value, env.encodeTree(PrefsTree(globalPrefs.data, fileHistory.Entries(), env))))
  {
    if filepath.None? {
      return false;
    }
    var data := PrefsSerialize(globalPrefs, fileHistory, env);
    ok := env.writeAll(filepath.value, data);
  }
}

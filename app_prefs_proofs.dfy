/** Properties of the preference codec: what a history entry and the global
    record look like once written, what reading them back restores, and how
    a whole preferences text is read. */
module AppPrefsProofs {
  import opened Options
  import opened CInts
  import opened Benc
  import opened DisplayStates
  import opened GlobalPrefs
  import opened AppPrefs

  // ------------------------------------------------------ one entry, written

  /** An entry written in globals-only mode, or one that uses the global
      values, holds the path, the decryption key when there is one and the
      use-global-values flag set to 1, in that order, and none of the
      per-document keys. */
  lemma AbbreviatedEntry(e: DisplayStateData, globalPrefsOnly: bool, env: Env)
    requires TocStateValid(e.tocState) && (globalPrefsOnly || e.useGlobalValues)
    ensures var d := EntryDict(e, globalPrefsOnly, env);
      Keys(d) == AbbreviatedKeys(e.decryptionKey.Some?) &&
      Lookup(d, FileKey) == Some(BString(e.filePath)) &&
      Lookup(d, DecryptionKeyKey) ==
        (if e.decryptionKey.Some? then Some(BString(e.decryptionKey.value)) else None) &&
      Lookup(d, UseGlobalValuesKey) == Some(BInt(1)) &&
      forall k :: 0 <= k < |OverrideKeys| ==> Lookup(d, OverrideKeys[k]) == None
  {
    var d := EntryDict(e, globalPrefsOnly, env);
    LookupIn(d, FileKey, BString(e.filePath));
    if e.decryptionKey.Some? {
      LookupIn(d, DecryptionKeyKey, BString(e.decryptionKey.value));
    } else {
      LookupNotIn(d, DecryptionKeyKey);
    }
    LookupIn(d, UseGlobalValuesKey, BInt(1));
    forall k | 0 <= k < |OverrideKeys| ensures Lookup(d, OverrideKeys[k]) == None {
      LookupNotIn(d, OverrideKeys[k]);
    }
  }

  // ------------------------------------------------- one entry, read back

  /** The toc ids written for a buffer with a positive count decode to the
      buffer itself, count and ids in order, without whatever follows the
      last id. */
  lemma TocRoundTrip(t: seq<int32>)
    requires TocStateValid(Some(t)) && t[0] > 0
    ensures TocSlots(TocIds(t)) == t[..t[0] as int + 1]
  {
    var ids := TocIds(t);
    var r := TocSlots(ids);
    assert |r| == t[0] as int + 1;
    forall k | 0 <= k < |r| ensures r[k] == t[k] {
      if k > 0 {
        assert ids[k - 1] == BInt(t[k] as int64);
      }
    }
  }

  /** The toc buffer a written, then read, full-form entry ends with: the
      buffer up to its last id when its count is positive, none otherwise. */
  function RestoredToc(t: Option<seq<int32>>): Option<seq<int32>>
    requires TocStateValid(t)
  {
    if t.Some? && t.value[0] > 0 then Some(t.value[..t.value[0] as int + 1]) else None
  }

  /** The display mode a written, then read, full-form entry ends with: the
      mode its name resolves to, or the fresh state's mode when the mode
      has no name or the name resolves to nothing. */
  function RestoredMode(m: DisplayMode, env: Env): DisplayMode
  {
    match env.modeName(m)
    case Some(name) => ModeFromName(env, name, FreshState.displayMode)
    case None => FreshState.displayMode
  }

  /** What writing an entry and reading it back in the same mode gives: the
      abbreviated entry when only that was written; otherwise the entry
      itself, with the display mode through its name, the zoom through its
      text and the toc buffer cut after its last id. */
  function RoundTrip(e: DisplayStateData, globalPrefsOnly: bool, env: Env): DisplayStateData
    requires TocStateValid(e.tocState)
  {
    if globalPrefsOnly || e.useGlobalValues then Abbreviated(e.filePath, e.decryptionKey)
    else e.(displayMode := RestoredMode(e.displayMode, env),
            zoomVirtual := env.parseZoom(env.formatZoom(e.zoomVirtual)),
            tocState := RestoredToc(e.tocState))
  }

  /** Reading back a written entry, in the mode it was written in. */
  lemma EntryRoundTrip(e: DisplayStateData, globalPrefsOnly: bool, env: Env)
    requires TocStateValid(e.tocState)
    ensures DecodeEntry(EntryDict(e, globalPrefsOnly, env), globalPrefsOnly, env) ==
      Some(RoundTrip(e, globalPrefsOnly, env))
  {
    var d := EntryDict(e, globalPrefsOnly, env);
    if globalPrefsOnly || e.useGlobalValues {
      AbbreviatedEntry(e, globalPrefsOnly, env);
      if !globalPrefsOnly {
        AbbreviatedOverrides(e, env);
      }
    } else {
      FullFormOverrides(e, env);
    }
  }

  /** Reading the per-document fields of an abbreviated entry changes
      nothing but the use-global-values flag. */
  lemma AbbreviatedOverrides(e: DisplayStateData, env: Env)
    requires TocStateValid(e.tocState) && e.useGlobalValues
    ensures var d := EntryDict(e, false, env);
      DecodeOverrides(d, FreshState.(filePath := e.filePath, decryptionKey := e.decryptionKey), env) ==
        Abbreviated(e.filePath, e.decryptionKey)
  {
    AbbreviatedEntry(e, false, env);
    var d := EntryDict(e, false, env);
    assert Lookup(d, OverrideKeys[0]) == None;
    assert Lookup(d, OverrideKeys[1]) == None;
    assert Lookup(d, OverrideKeys[2]) == None;
    assert Lookup(d, OverrideKeys[3]) == None;
    assert Lookup(d, OverrideKeys[4]) == None;
    assert Lookup(d, OverrideKeys[5]) == None;
    assert Lookup(d, OverrideKeys[6]) == None;
    assert Lookup(d, OverrideKeys[7]) == None;
    assert Lookup(d, OverrideKeys[8]) == None;
    assert Lookup(d, OverrideKeys[9]) == None;
    assert Lookup(d, OverrideKeys[10]) == None;
    assert Lookup(d, OverrideKeys[11]) == None;
    assert Lookup(d, OverrideKeys[12]) == None;
    assert Lookup(d, OverrideKeys[13]) == None;
  }

  /** The first of two lookups that finds something. */
  function OrElse(x: Option<Node>, y: Option<Node>): Option<Node>
  {
    if x.Some? then x else y
  }

  /** The keys of a full-form entry before its view position: the path,
      the decryption key and the display-mode name, the last two only when
      they exist. */
  function EntryFront(e: DisplayStateData, env: Env): Dict
  {
    EntryHead(e) + OptString(DisplayModeKey, env.modeName(e.displayMode))
  }

  /** Where each key of the front of a full-form entry is looked up to. */
  lemma EntryFrontLookup(e: DisplayStateData, env: Env, key: string)
    ensures Lookup(EntryFront(e, env), key) ==
      if key == FileKey then Some(BString(e.filePath))
      else if key == DecryptionKeyKey && e.decryptionKey.Some? then Some(BString(e.decryptionKey.value))
      else if key == DisplayModeKey && env.modeName(e.displayMode).Some? then Some(BString(env.modeName(e.displayMode).value))
      else None
  {
    OptStringLookup(DisplayModeKey, env.modeName(e.displayMode), key);
    OptStringLookup(DecryptionKeyKey, e.decryptionKey, key);
    LookupConcat(EntryHead(e), OptString(DisplayModeKey, env.modeName(e.displayMode)), key);
    LookupConcat([Pair(FileKey, BString(e.filePath))], OptString(DecryptionKeyKey, e.decryptionKey), key);
  }

  /** Where each key of the view-position group is looked up to. */
  lemma ViewLookup(e: DisplayStateData, key: string)
    ensures Lookup(ViewPart(e), key) ==
      if key == PageNoKey then Some(IntNode(e.pageNo))
      else if key == RotationKey then Some(IntNode(e.rotation))
      else if key == ScrollXKey then Some(IntNode(e.scrollX))
      else if key == ScrollYKey then Some(IntNode(e.scrollY))
      else None
  {
    var v := ViewPart(e);
    assert v[3..][1..] == [];
    assert Lookup(v[3..], key) == if key == ScrollYKey then Some(IntNode(e.scrollY)) else None;
    assert v[2..][1..] == v[3..];
    assert Lookup(v[2..], key) == if key == ScrollXKey then Some(IntNode(e.scrollX)) else Lookup(v[3..], key);
    assert v[1..][1..] == v[2..];
    assert Lookup(v[1..], key) == if key == RotationKey then Some(IntNode(e.rotation)) else Lookup(v[2..], key);
  }

  /** Where each key of the window-placement group is looked up to. */
  lemma WindowLookup(e: DisplayStateData, key: string)
    ensures Lookup(WindowPart(e), key) ==
      if key == WindowStateKey then Some(IntNode(e.windowState))
      else if key == WindowXKey then Some(IntNode(e.windowX))
      else if key == WindowYKey then Some(IntNode(e.windowY))
      else if key == WindowDxKey then Some(IntNode(e.windowDx))
      else if key == WindowDyKey then Some(IntNode(e.windowDy))
      else None
  {
    var v := WindowPart(e);
    assert v[4..][1..] == [];
    assert Lookup(v[4..], key) == if key == WindowDyKey then Some(IntNode(e.windowDy)) else None;
    assert v[3..][1..] == v[4..];
    assert Lookup(v[3..], key) == if key == WindowDxKey then Some(IntNode(e.windowDx)) else Lookup(v[4..], key);
    assert v[2..][1..] == v[3..];
    assert Lookup(v[2..], key) == if key == WindowYKey then Some(IntNode(e.windowY)) else Lookup(v[3..], key);
    assert v[1..][1..] == v[2..];
    assert Lookup(v[1..], key) == if key == WindowXKey then Some(IntNode(e.windowX)) else Lookup(v[2..], key);
  }

  /** Where each key of the toc-pane and zoom group is looked up to. */
  lemma PaneLookup(e: DisplayStateData, env: Env, key: string)
    ensures Lookup(PanePart(e, env), key) ==
      if key == ShowTocKey then Some(BoolNode(e.showToc))
      else if key == TocDxKey then Some(IntNode(e.tocDx))
      else if key == ZoomVirtualKey then Some(BString(env.formatZoom(e.zoomVirtual)))
      else None
  {
    var v := PanePart(e, env);
    assert v[2..][1..] == [];
    assert Lookup(v[2..], key) == if key == ZoomVirtualKey then Some(BString(env.formatZoom(e.zoomVirtual))) else None;
    assert v[1..][1..] == v[2..];
    assert Lookup(v[1..], key) == if key == TocDxKey then Some(IntNode(e.tocDx)) else Lookup(v[2..], key);
  }

  /** The toc key is present only for a buffer with a positive count. */
  lemma TocLookup(t: Option<seq<int32>>, key: string)
    requires TocStateValid(t)
    ensures Lookup(TocPart(t), key) ==
      if key == TocStateKey && t.Some? && t.value[0] > 0 then Some(BArray(TocIds(t.value))) else None
  {
  }

  /** A lookup in a full-form entry consults its groups in order. */
  lemma FullSplit(e: DisplayStateData, env: Env, key: string)
    requires TocStateValid(e.tocState) && !e.useGlobalValues
    ensures Lookup(EntryDict(e, false, env), key) ==
      OrElse(OrElse(OrElse(OrElse(Lookup(EntryFront(e, env), key),
        Lookup(ViewPart(e), key)), Lookup(WindowPart(e), key)), Lookup(PanePart(e, env), key)), Lookup(TocPart(e.tocState), key))
  {
    var a := EntryFront(e, env);
    LookupConcat(a, ViewPart(e), key);
    LookupConcat(a + ViewPart(e), WindowPart(e), key);
    LookupConcat(a + ViewPart(e) + WindowPart(e), PanePart(e, env), key);
    LookupConcat(a + ViewPart(e) + WindowPart(e) + PanePart(e, env), TocPart(e.tocState), key);
  }

  /** A full-form entry holds every per-document field under its own key,
      the decryption key, the display-mode name and the toc ids only when
      they exist, and no use-global-values flag. */
  lemma FullLookup(e: DisplayStateData, env: Env, key: string)
    requires TocStateValid(e.tocState) && !e.useGlobalValues
    ensures Lookup(EntryDict(e, false, env), key) ==
      if key == FileKey then Some(BString(e.filePath))
      else if key == DecryptionKeyKey && e.decryptionKey.Some? then Some(BString(e.decryptionKey.value))
      else if key == DisplayModeKey && env.modeName(e.displayMode).Some? then Some(BString(env.modeName(e.displayMode).value))
      else if key == PageNoKey then Some(IntNode(e.pageNo))
      else if key == RotationKey then Some(IntNode(e.rotation))
      else if key == ScrollXKey then Some(IntNode(e.scrollX))
      else if key == ScrollYKey then Some(IntNode(e.scrollY))
      else if key == WindowStateKey then Some(IntNode(e.windowState))
      else if key == WindowXKey then Some(IntNode(e.windowX))
      else if key == WindowYKey then Some(IntNode(e.windowY))
      else if key == WindowDxKey then Some(IntNode(e.windowDx))
      else if key == WindowDyKey then Some(IntNode(e.windowDy))
      else if key == ShowTocKey then Some(BoolNode(e.showToc))
      else if key == TocDxKey then Some(IntNode(e.tocDx))
      else if key == ZoomVirtualKey then Some(BString(env.formatZoom(e.zoomVirtual)))
      else if key == TocStateKey && e.tocState.Some? && e.tocState.value[0] > 0 then Some(BArray(TocIds(e.tocState.value)))
      else None
  {
    FullSplit(e, env, key);
    EntryFrontLookup(e, env, key);
    ViewLookup(e, key);
    WindowLookup(e, key);
    PaneLookup(e, env, key);
    TocLookup(e.tocState, key);
  }

  /** The view position of a full-form entry reads back. */
  lemma FullView(e: DisplayStateData, env: Env, base: DisplayStateData)
    requires TocStateValid(e.tocState) && !e.useGlobalValues
    ensures var d := EntryDict(e, false, env);
      DictGetInt(d, PageNoKey, base.pageNo) == e.pageNo &&
      DictGetInt(d, RotationKey, base.rotation) == e.rotation &&
      DictGetInt(d, ScrollXKey, base.scrollX) == e.scrollX &&
      DictGetInt(d, ScrollYKey, base.scrollY) == e.scrollY
  {
    FullLookup(e, env, PageNoKey);
    FullLookup(e, env, RotationKey);
    FullLookup(e, env, ScrollXKey);
    FullLookup(e, env, ScrollYKey);
  }

  /** The window placement of a full-form entry reads back. */
  lemma FullWindow(e: DisplayStateData, env: Env, base: DisplayStateData)
    requires TocStateValid(e.tocState) && !e.useGlobalValues
    ensures var d := EntryDict(e, false, env);
      DictGetInt(d, WindowStateKey, base.windowState) == e.windowState &&
      DictGetInt(d, WindowXKey, base.windowX) == e.windowX &&
      DictGetInt(d, WindowYKey, base.windowY) == e.windowY &&
      DictGetInt(d, WindowDxKey, base.windowDx) == e.windowDx &&
      DictGetInt(d, WindowDyKey, base.windowDy) == e.windowDy
  {
    FullLookup(e, env, WindowStateKey);
    FullLookup(e, env, WindowXKey);
    FullLookup(e, env, WindowYKey);
    FullLookup(e, env, WindowDxKey);
    FullLookup(e, env, WindowDyKey);
  }

  /** The toc pane and the zoom of a full-form entry read back, and the
      absent use-global-values flag leaves the fresh value. */
  lemma FullPane(e: DisplayStateData, env: Env, base: DisplayStateData)
    requires TocStateValid(e.tocState) && !e.useGlobalValues
    ensures var d := EntryDict(e, false, env);
      DictGetBool(d, ShowTocKey, base.showToc) == e.showToc &&
      DictGetInt(d, TocDxKey, base.tocDx) == e.tocDx &&
      ZoomField(d, ZoomVirtualKey, base.zoomVirtual, env) == env.parseZoom(env.formatZoom(e.zoomVirtual)) &&
      DictGetBool(d, UseGlobalValuesKey, base.useGlobalValues) == base.useGlobalValues
  {
    FullLookup(e, env, ShowTocKey);
    FullLookup(e, env, TocDxKey);
    FullLookup(e, env, ZoomVirtualKey);
    FullLookup(e, env, UseGlobalValuesKey);
  }

  /** The path, the decryption key and the display mode of a full-form
      entry read back, the mode through its name. */
  lemma FullHead(e: DisplayStateData, env: Env, base: DisplayStateData)
    requires TocStateValid(e.tocState) && !e.useGlobalValues
    ensures var d := EntryDict(e, false, env);
      DictGetStrInto(d, FileKey, None) == Some(e.filePath) &&
      DictGetStrInto(d, DecryptionKeyKey, None) == e.decryptionKey &&
      ModeField(d, DisplayModeKey, base.displayMode, env) ==
        (match env.modeName(e.displayMode)
         case Some(name) => ModeFromName(env, name, base.displayMode)
         case None => base.displayMode)
  {
    FullLookup(e, env, FileKey);
    FullLookup(e, env, DecryptionKeyKey);
    FullLookup(e, env, DisplayModeKey);
  }

  /** The toc buffer of a full-form entry reads back cut after its last
      id, or stays absent when no id was written. */
  lemma FullToc(e: DisplayStateData, env: Env, base: DisplayStateData)
    requires TocStateValid(e.tocState) && !e.useGlobalValues && base.tocState.None?
    ensures var d := EntryDict(e, false, env);
      (match GetArray(d, TocStateKey)
       case Some(items) => Some(TocSlots(items))
       case None => base.tocState) == RestoredToc(e.tocState)
  {
    FullLookup(e, env, TocStateKey);
    if e.tocState.Some? && e.tocState.value[0] > 0 {
      TocRoundTrip(e.tocState.value);
    }
  }

  lemma FullFormOverrides(e: DisplayStateData, env: Env)
    requires TocStateValid(e.tocState) && !e.useGlobalValues
    ensures var d := EntryDict(e, false, env);
      DictGetStrInto(d, FileKey, None) == Some(e.filePath) &&
      DictGetStrInto(d, DecryptionKeyKey, None) == e.decryptionKey &&
      DecodeOverrides(d, FreshState.(filePath := e.filePath, decryptionKey := e.decryptionKey), env) ==
        RoundTrip(e, false, env)
  {
    var base := FreshState.(filePath := e.filePath, decryptionKey := e.decryptionKey);
    FullHead(e, env, base);
    FullView(e, env, base);
    FullWindow(e, env, base);
    FullPane(e, env, base);
    FullToc(e, env, base);
  }

  // ------------------------------------------- the global section, read back

  /** Where each key of the first flags group is looked up to. */
  lemma GlobalFlagsLookup(p: GlobalPrefsData, key: string)
    ensures Lookup(GlobalFlags(p), key) ==
      if key == ShowToolbarKey then Some(BoolNode(p.showToolbar))
      else if key == ShowTocKey then Some(BoolNode(p.showToc))
      else if key == TocDxKey then Some(IntNode(p.tocDx))
      else if key == PdfAssociateDontAskKey then Some(BoolNode(p.pdfAssociateDontAskAgain))
      else if key == PdfAssociateAssociateKey then Some(BoolNode(p.pdfAssociateShouldAssociate))
      else None
  {
    var v := GlobalFlags(p);
    assert v[4..][1..] == [];
    assert Lookup(v[4..], key) == if key == PdfAssociateAssociateKey then Some(BoolNode(p.pdfAssociateShouldAssociate)) else None;
    assert v[3..][1..] == v[4..];
    assert Lookup(v[3..], key) == if key == PdfAssociateDontAskKey then Some(BoolNode(p.pdfAssociateDontAskAgain)) else Lookup(v[4..], key);
    assert v[2..][1..] == v[3..];
    assert Lookup(v[2..], key) == if key == TocDxKey then Some(IntNode(p.tocDx)) else Lookup(v[3..], key);
    assert v[1..][1..] == v[2..];
    assert Lookup(v[1..], key) == if key == ShowTocKey then Some(BoolNode(p.showToc)) else Lookup(v[2..], key);
  }

  /** Where each key of the options group is looked up to. */
  lemma GlobalOptionsLookup(p: GlobalPrefsData, key: string)
    ensures Lookup(GlobalOptions(p), key) ==
      if key == BgColorKey then Some(IntNode(p.bgColor))
      else if key == EscToExitKey then Some(BoolNode(p.escToExit))
      else if key == EnableAutoUpdateKey then Some(BoolNode(p.enableAutoUpdate))
      else if key == RememberOpenedFilesKey then Some(BoolNode(p.rememberOpenedFiles))
      else if key == GlobalPrefsOnlyKey then Some(BoolNode(p.globalPrefsOnly))
      else None
  {
    var v := GlobalOptions(p);
    assert v[4..][1..] == [];
    assert Lookup(v[4..], key) == if key == GlobalPrefsOnlyKey then Some(BoolNode(p.globalPrefsOnly)) else None;
    assert v[3..][1..] == v[4..];
    assert Lookup(v[3..], key) == if key == RememberOpenedFilesKey then Some(BoolNode(p.rememberOpenedFiles)) else Lookup(v[4..], key);
    assert v[2..][1..] == v[3..];
    assert Lookup(v[2..], key) == if key == EnableAutoUpdateKey then Some(BoolNode(p.enableAutoUpdate)) else Lookup(v[3..], key);
    assert v[1..][1..] == v[2..];
    assert Lookup(v[1..], key) == if key == EscToExitKey then Some(BoolNode(p.escToExit)) else Lookup(v[2..], key);
  }

  /** Where each key of the default-view group is looked up to. */
  lemma GlobalViewLookup(p: GlobalPrefsData, env: Env, key: string)
    requires env.modeName(p.defaultDisplayMode).Some?
    ensures Lookup(GlobalView(p, env), key) ==
      if key == DisplayModeKey then Some(BString(env.modeName(p.defaultDisplayMode).value))
      else if key == ZoomVirtualKey then Some(BString(env.formatZoom(p.defaultZoom)))
      else if key == WindowStateKey then Some(IntNode(p.windowState))
      else if key == WindowXKey then Some(IntNode(p.windowX))
      else if key == WindowYKey then Some(IntNode(p.windowY))
      else if key == WindowDxKey then Some(IntNode(p.windowDx))
      else if key == WindowDyKey then Some(IntNode(p.windowDy))
      else None
  {
    var v := GlobalView(p, env);
    assert v[6..][1..] == [];
    assert Lookup(v[6..], key) == if key == WindowDyKey then Some(IntNode(p.windowDy)) else None;
    assert v[5..][1..] == v[6..];
    assert Lookup(v[5..], key) == if key == WindowDxKey then Some(IntNode(p.windowDx)) else Lookup(v[6..], key);
    assert v[4..][1..] == v[5..];
    assert Lookup(v[4..], key) == if key == WindowYKey then Some(IntNode(p.windowY)) else Lookup(v[5..], key);
    assert v[3..][1..] == v[4..];
    assert Lookup(v[3..], key) == if key == WindowXKey then Some(IntNode(p.windowX)) else Lookup(v[4..], key);
    assert v[2..][1..] == v[3..];
    assert Lookup(v[2..], key) == if key == WindowStateKey then Some(IntNode(p.windowState)) else Lookup(v[3..], key);
    assert v[1..][1..] == v[2..];
    assert Lookup(v[1..], key) == if key == ZoomVirtualKey then Some(BString(env.formatZoom(p.defaultZoom))) else Lookup(v[2..], key);
  }

  /** The lookup of a string field that is written only when not null. */
  lemma OptStringLookup(k: string, s: Option<string>, key: string)
    ensures Lookup(OptString(k, s), key) == if key == k && s.Some? then Some(BString(s.value)) else None
  {
  }

  /** Where each key of the inverse-search and update group is looked up to. */
  lemma GlobalExtrasLookup(p: GlobalPrefsData, key: string)
    ensures Lookup(GlobalExtras(p), key) ==
      if key == InverseSearchKey && p.inverseSearchCmdLine.Some? then Some(BString(p.inverseSearchCmdLine.value))
      else if key == EnableTeXEnhancementsKey then Some(BoolNode(p.enableTeXEnhancements))
      else if key == VersionToSkipKey && p.versionToSkip.Some? then Some(BString(p.versionToSkip.value))
      else if key == LastUpdateKey && p.lastUpdateTime.Some? then Some(BString(p.lastUpdateTime.value))
      else None
  {
    var a := OptString(InverseSearchKey, p.inverseSearchCmdLine);
    var b := [Pair(EnableTeXEnhancementsKey, BoolNode(p.enableTeXEnhancements))];
    var c := OptString(VersionToSkipKey, p.versionToSkip);
    OptStringLookup(InverseSearchKey, p.inverseSearchCmdLine, key);
    OptStringLookup(VersionToSkipKey, p.versionToSkip, key);
    OptStringLookup(LastUpdateKey, p.lastUpdateTime, key);
    LookupConcat(a, b, key);
    LookupConcat(a + b, c, key);
    LookupConcat(a + b + c, OptString(LastUpdateKey, p.lastUpdateTime), key);
  }

  /** Where each key of the language and forward-search group is looked up to. */
  lemma GlobalTailLookup(p: GlobalPrefsData, key: string)
    ensures Lookup(GlobalTail(p), key) ==
      if key == UILanguageKey then Some(BString(p.currentLanguage))
      else if key == FwdSearchOffsetKey then Some(IntNode(p.fwdsearchOffset))
      else if key == FwdSearchColorKey then Some(IntNode(p.fwdsearchColor))
      else if key == FwdSearchWidthKey then Some(IntNode(p.fwdsearchWidth))
      else if key == FwdSearchPermanentKey then Some(BoolNode(p.fwdsearchPermanent))
      else None
  {
    var v := GlobalTail(p);
    assert v[4..][1..] == [];
    assert Lookup(v[4..], key) == if key == FwdSearchPermanentKey then Some(BoolNode(p.fwdsearchPermanent)) else None;
    assert v[3..][1..] == v[4..];
    assert Lookup(v[3..], key) == if key == FwdSearchWidthKey then Some(IntNode(p.fwdsearchWidth)) else Lookup(v[4..], key);
    assert v[2..][1..] == v[3..];
    assert Lookup(v[2..], key) == if key == FwdSearchColorKey then Some(IntNode(p.fwdsearchColor)) else Lookup(v[3..], key);
    assert v[1..][1..] == v[2..];
    assert Lookup(v[1..], key) == if key == FwdSearchOffsetKey then Some(IntNode(p.fwdsearchOffset)) else Lookup(v[2..], key);
  }

  /** A lookup in the global section consults its groups in order. */
  lemma GlobalSplit(p: GlobalPrefsData, env: Env, key: string)
    requires env.modeName(p.defaultDisplayMode).Some?
    ensures Lookup(GlobalDict(p, env), key) ==
      OrElse(OrElse(OrElse(OrElse(Lookup(GlobalFlags(p), key), Lookup(GlobalOptions(p), key)),
        Lookup(GlobalView(p, env), key)), Lookup(GlobalExtras(p), key)), Lookup(GlobalTail(p), key))
  {
    var a := GlobalFlags(p);
    var b := GlobalOptions(p);
    var c := GlobalView(p, env);
    var d := GlobalExtras(p);
    LookupConcat(a, b, key);
    LookupConcat(a + b, c, key);
    LookupConcat(a + b + c, d, key);
    LookupConcat(a + b + c + d, GlobalTail(p), key);
  }

  /** The written global section holds every field of the record under its
      own key, the optional strings only when they are not null, and
      nothing else. */
  lemma GlobalLookup(p: GlobalPrefsData, env: Env, key: string)
    requires env.modeName(p.defaultDisplayMode).Some?
    ensures Lookup(GlobalDict(p, env), key) ==
      if key == ShowToolbarKey then Some(BoolNode(p.showToolbar))
      else if key == ShowTocKey then Some(BoolNode(p.showToc))
      else if key == TocDxKey then Some(IntNode(p.tocDx))
      else if key == PdfAssociateDontAskKey then Some(BoolNode(p.pdfAssociateDontAskAgain))
      else if key == PdfAssociateAssociateKey then Some(BoolNode(p.pdfAssociateShouldAssociate))
      else if key == BgColorKey then Some(IntNode(p.bgColor))
      else if key == EscToExitKey then Some(BoolNode(p.escToExit))
      else if key == EnableAutoUpdateKey then Some(BoolNode(p.enableAutoUpdate))
      else if key == RememberOpenedFilesKey then Some(BoolNode(p.rememberOpenedFiles))
      else if key == GlobalPrefsOnlyKey then Some(BoolNode(p.globalPrefsOnly))
      else if key == DisplayModeKey then Some(BString(env.modeName(p.defaultDisplayMode).value))
      else if key == ZoomVirtualKey then Some(BString(env.formatZoom(p.defaultZoom)))
      else if key == WindowStateKey then Some(IntNode(p.windowState))
      else if key == WindowXKey then Some(IntNode(p.windowX))
      else if key == WindowYKey then Some(IntNode(p.windowY))
      else if key == WindowDxKey then Some(IntNode(p.windowDx))
      else if key == WindowDyKey then Some(IntNode(p.windowDy))
      else if key == InverseSearchKey && p.inverseSearchCmdLine.Some? then Some(BString(p.inverseSearchCmdLine.value))
      else if key == EnableTeXEnhancementsKey then Some(BoolNode(p.enableTeXEnhancements))
      else if key == VersionToSkipKey && p.versionToSkip.Some? then Some(BString(p.versionToSkip.value))
      else if key == LastUpdateKey && p.lastUpdateTime.Some? then Some(BString(p.lastUpdateTime.value))
      else if key == UILanguageKey then Some(BString(p.currentLanguage))
      else if key == FwdSearchOffsetKey then Some(IntNode(p.fwdsearchOffset))
      else if key == FwdSearchColorKey then Some(IntNode(p.fwdsearchColor))
      else if key == FwdSearchWidthKey then Some(IntNode(p.fwdsearchWidth))
      else if key == FwdSearchPermanentKey then Some(BoolNode(p.fwdsearchPermanent))
      else None
  {
    GlobalSplit(p, env, key);
    GlobalFlagsLookup(p, key);
    GlobalOptionsLookup(p, key);
    GlobalViewLookup(p, env, key);
    GlobalExtrasLookup(p, key);
    GlobalTailLookup(p, key);
    // a case split on the group holding the key; each branch is then one
    // step of `GlobalSplit`, which keeps the proof cheap
    if Lookup(GlobalFlags(p), key).Some? {
    } else if Lookup(GlobalOptions(p), key).Some? {
    } else if Lookup(GlobalView(p, env), key).Some? {
    } else if Lookup(GlobalExtras(p), key).Some? {
    } else {
    }
  }

  /** An optional string read back over `prior`: a null string was not
      written, so the prior value stays. */
  function KeepPrior(written: Option<string>, prior: Option<string>): Option<string>
  {
    if written.Some? then written else prior
  }

  /** What writing the global record and reading it back over `prior`
      gives: the record itself, except that the display mode goes through
      its name, the zoom through its text, a null string keeps the prior
      value and the language stays the prior one (the language name goes
      to the language selector instead). */
  function RestoredGlobal(p: GlobalPrefsData, prior: GlobalPrefsData, env: Env): GlobalPrefsData
    requires env.modeName(p.defaultDisplayMode).Some?
  {
    p.(defaultDisplayMode := ModeFromName(env, env.modeName(p.defaultDisplayMode).value, prior.defaultDisplayMode),
       defaultZoom := env.parseZoom(env.formatZoom(p.defaultZoom)),
       inverseSearchCmdLine := KeepPrior(p.inverseSearchCmdLine, prior.inverseSearchCmdLine),
       versionToSkip := KeepPrior(p.versionToSkip, prior.versionToSkip),
       lastUpdateTime := KeepPrior(p.lastUpdateTime, prior.lastUpdateTime),
       currentLanguage := prior.currentLanguage)
  }

  /** The flags and options of a written global section read back. */
  lemma GlobalRestoresFlags(p: GlobalPrefsData, prior: GlobalPrefsData, env: Env)
    requires env.modeName(p.defaultDisplayMode).Some?
    ensures var g := GlobalDict(p, env);
      DictGetBool(g, ShowToolbarKey, prior.showToolbar) == p.showToolbar &&
      DictGetBool(g, ShowTocKey, prior.showToc) == p.showToc &&
      DictGetInt(g, TocDxKey, prior.tocDx) == p.tocDx &&
      DictGetBool(g, PdfAssociateDontAskKey, prior.pdfAssociateDontAskAgain) == p.pdfAssociateDontAskAgain &&
      DictGetBool(g, PdfAssociateAssociateKey, prior.pdfAssociateShouldAssociate) == p.pdfAssociateShouldAssociate &&
      DictGetInt(g, BgColorKey, prior.bgColor) == p.bgColor &&
      DictGetBool(g, EscToExitKey, prior.escToExit) == p.escToExit &&
      DictGetBool(g, EnableAutoUpdateKey, prior.enableAutoUpdate) == p.enableAutoUpdate &&
      DictGetBool(g, RememberOpenedFilesKey, prior.rememberOpenedFiles) == p.rememberOpenedFiles &&
      DictGetBool(g, GlobalPrefsOnlyKey, prior.globalPrefsOnly) == p.globalPrefsOnly
  {
    GlobalLookup(p, env, ShowToolbarKey);
    GlobalLookup(p, env, ShowTocKey);
    GlobalLookup(p, env, TocDxKey);
    GlobalLookup(p, env, PdfAssociateDontAskKey);
    GlobalLookup(p, env, PdfAssociateAssociateKey);
    GlobalLookup(p, env, BgColorKey);
    GlobalLookup(p, env, EscToExitKey);
    GlobalLookup(p, env, EnableAutoUpdateKey);
    GlobalLookup(p, env, RememberOpenedFilesKey);
    GlobalLookup(p, env, GlobalPrefsOnlyKey);
  }

  /** The default view and the window placement of a written global
      section read back. */
  lemma GlobalRestoresView(p: GlobalPrefsData, prior: GlobalPrefsData, env: Env)
    requires env.modeName(p.defaultDisplayMode).Some?
    ensures var g := GlobalDict(p, env);
      ModeField(g, DisplayModeKey, prior.defaultDisplayMode, env) ==
        ModeFromName(env, env.modeName(p.defaultDisplayMode).value, prior.defaultDisplayMode) &&
      ZoomField(g, ZoomVirtualKey, prior.defaultZoom, env) == env.parseZoom(env.formatZoom(p.defaultZoom)) &&
      DictGetInt(g, WindowStateKey, prior.windowState) == p.windowState &&
      DictGetInt(g, WindowXKey, prior.windowX) == p.windowX &&
      DictGetInt(g, WindowYKey, prior.windowY) == p.windowY &&
      DictGetInt(g, WindowDxKey, prior.windowDx) == p.windowDx &&
      DictGetInt(g, WindowDyKey, prior.windowDy) == p.windowDy
  {
    GlobalLookup(p, env, DisplayModeKey);
    GlobalLookup(p, env, ZoomVirtualKey);
    GlobalLookup(p, env, WindowStateKey);
    GlobalLookup(p, env, WindowXKey);
    GlobalLookup(p, env, WindowYKey);
    GlobalLookup(p, env, WindowDxKey);
    GlobalLookup(p, env, WindowDyKey);
  }

  /** The inverse-search and update fields of a written global section
      read back. */
  lemma GlobalRestoresExtras(p: GlobalPrefsData, prior: GlobalPrefsData, env: Env)
    requires env.modeName(p.defaultDisplayMode).Some?
    ensures var g := GlobalDict(p, env);
      DictGetStrInto(g, InverseSearchKey, prior.inverseSearchCmdLine) ==
        KeepPrior(p.inverseSearchCmdLine, prior.inverseSearchCmdLine) &&
      DictGetBool(g, EnableTeXEnhancementsKey, prior.enableTeXEnhancements) == p.enableTeXEnhancements &&
      DictGetStrInto(g, VersionToSkipKey, prior.versionToSkip) == KeepPrior(p.versionToSkip, prior.versionToSkip) &&
      DictGetStrInto(g, LastUpdateKey, prior.lastUpdateTime) == KeepPrior(p.lastUpdateTime, prior.lastUpdateTime)
  {
    GlobalLookup(p, env, InverseSearchKey);
    GlobalLookup(p, env, EnableTeXEnhancementsKey);
    GlobalLookup(p, env, VersionToSkipKey);
    GlobalLookup(p, env, LastUpdateKey);
  }

  /** The language and forward-search fields of a written global section
      read back. */
  lemma GlobalRestoresTail(p: GlobalPrefsData, prior: GlobalPrefsData, env: Env)
    requires env.modeName(p.defaultDisplayMode).Some?
    ensures var g := GlobalDict(p, env);
      DictGetStr(g, UILanguageKey) == Some(p.currentLanguage) &&
      DictGetInt(g, FwdSearchOffsetKey, prior.fwdsearchOffset) == p.fwdsearchOffset &&
      DictGetInt(g, FwdSearchColorKey, prior.fwdsearchColor) == p.fwdsearchColor &&
      DictGetInt(g, FwdSearchWidthKey, prior.fwdsearchWidth) == p.fwdsearchWidth &&
      DictGetBool(g, FwdSearchPermanentKey, prior.fwdsearchPermanent) == p.fwdsearchPermanent
  {
    GlobalLookup(p, env, UILanguageKey);
    GlobalLookup(p, env, FwdSearchOffsetKey);
    GlobalLookup(p, env, FwdSearchColorKey);
    GlobalLookup(p, env, FwdSearchWidthKey);
    GlobalLookup(p, env, FwdSearchPermanentKey);
  }

  /** Reading back a written global section over any prior record restores
      the written record, and hands its language name to the language
      selector. */
  lemma GlobalRoundTrip(p: GlobalPrefsData, prior: GlobalPrefsData, env: Env)
    requires env.modeName(p.defaultDisplayMode).Some?
    ensures DecodeGlobal(GlobalDict(p, env), prior, env) == RestoredGlobal(p, prior, env)
    ensures DictGetStr(GlobalDict(p, env), UILanguageKey) == Some(p.currentLanguage)
  {
    GlobalRestoresFlags(p, prior, env);
    GlobalRestoresView(p, prior, env);
    GlobalRestoresExtras(p, prior, env);
    GlobalRestoresTail(p, prior, env);
  }

  // ------------------------------------------------- the history, read back

  /** The history loop treats the elements independently: the entries of
      `a + b` are those of `a`, then those of `b`. */
  lemma {:induction false} DecodeHistoryConcat(a: seq<Node>, b: seq<Node>, globalPrefsOnly: bool, env: Env)
    ensures DecodeHistory(a + b, globalPrefsOnly, env) ==
      DecodeHistory(a, globalPrefsOnly, env) + DecodeHistory(b, globalPrefsOnly, env)
    decreases |b|
  {
    if |b| == 0 {
      assert a + b == a;
    } else {
      var b' := b[..|b| - 1];
      assert (a + b)[..|a + b| - 1] == a + b';
      DecodeHistoryConcat(a, b', globalPrefsOnly, env);
    }
  }

  /** An element that is not a dictionary, or whose dictionary has no file
      path, is skipped: the entries around it keep their order. */
  lemma DecodeHistorySkip(a: seq<Node>, n: Node, b: seq<Node>, globalPrefsOnly: bool, env: Env)
    requires !n.BDict? || DictGetStr(n.pairs, FileKey).None?
    ensures DecodeHistory(a + [n] + b, globalPrefsOnly, env) ==
      DecodeHistory(a, globalPrefsOnly, env) + DecodeHistory(b, globalPrefsOnly, env)
  {
    var r := DecodeItem(n, globalPrefsOnly, env);
    assert |r| != 1;
    assert [n][..0] == [];
    assert DecodeHistory([n], globalPrefsOnly, env) == DecodeHistory([], globalPrefsOnly, env) + r;
    assert DecodeHistory([n], globalPrefsOnly, env) == [];
    DecodeHistoryConcat(a, [n], globalPrefsOnly, env);
    assert DecodeHistory(a + [n], globalPrefsOnly, env) == DecodeHistory(a, globalPrefsOnly, env);
    DecodeHistoryConcat(a + [n], b, globalPrefsOnly, env);
  }

  /** An element that is a dictionary with a file path contributes its
      entry, in its place. */
  lemma DecodeHistoryKeep(a: seq<Node>, n: Node, b: seq<Node>, globalPrefsOnly: bool, env: Env)
    requires n.BDict? && DictGetStr(n.pairs, FileKey).Some?
    ensures DecodeHistory(a + [n] + b, globalPrefsOnly, env) ==
      DecodeHistory(a, globalPrefsOnly, env) + [DecodeEntry(n.pairs, globalPrefsOnly, env).value]
      + DecodeHistory(b, globalPrefsOnly, env)
  {
    DecodeHistoryConcat(a + [n], b, globalPrefsOnly, env);
    DecodeHistoryConcat(a, [n], globalPrefsOnly, env);
    assert [n][..0] == [];
  }

  /** What writing entries and reading each back in the same mode gives,
      entry by entry. */
  function RoundTrips(es: seq<DisplayStateData>, globalPrefsOnly: bool, env: Env): (r: seq<DisplayStateData>)
    requires AllTocStatesValid(es)
  {
    seq(|es|, i requires 0 <= i < |es| => RoundTrip(es[i], globalPrefsOnly, env))
  }

  /** The first k history elements written read back to the first k
      entries, each as its round trip. */
  lemma {:induction false} HistoryPrefixRoundTrip(es: seq<DisplayStateData>, globalPrefsOnly: bool, env: Env, k: nat)
    requires AllTocStatesValid(es)
    requires k <= |HistoryItems(es, globalPrefsOnly, env)|
    ensures DecodeHistory(HistoryItems(es, globalPrefsOnly, env)[..k], globalPrefsOnly, env) ==
      RoundTrips(es[..k], globalPrefsOnly, env)
  {
    var items := HistoryItems(es, globalPrefsOnly, env);
    if k > 0 {
      var e := es[k - 1];
      HistoryPrefixRoundTrip(es, globalPrefsOnly, env, k - 1);
      DecodeHistorySnoc(items, k - 1, globalPrefsOnly, env);
      EntryRoundTrip(e, globalPrefsOnly, env);
      RoundTripsSnoc(es, k, globalPrefsOnly, env);
    }
  }

  /** The round trips of the first k entries end with that of entry k - 1. */
  lemma RoundTripsSnoc(es: seq<DisplayStateData>, k: nat, globalPrefsOnly: bool, env: Env)
    requires AllTocStatesValid(es) && 0 < k <= |es|
    ensures RoundTrips(es[..k], globalPrefsOnly, env) ==
      RoundTrips(es[..k - 1], globalPrefsOnly, env) + [RoundTrip(es[k - 1], globalPrefsOnly, env)]
  {
  }

  /** Reading back a written history, in the mode it was written in, gives
      the entries that were written (no more than ten in globals-only
      mode), each as its round trip, in list order. */
  lemma HistoryRoundTrip(es: seq<DisplayStateData>, globalPrefsOnly: bool, env: Env)
    requires AllTocStatesValid(es)
    ensures DecodeHistory(HistoryItems(es, globalPrefsOnly, env), globalPrefsOnly, env) ==
      RoundTrips(es[..Min(|es|, HistoryLimit(globalPrefsOnly))], globalPrefsOnly, env)
  {
    var items := HistoryItems(es, globalPrefsOnly, env);
    HistoryPrefixRoundTrip(es, globalPrefsOnly, env, |items|);
    assert items[..|items|] == items;
  }

  /** In globals-only mode at most ten entries are written, each in the
      abbreviated form. */
  lemma GlobalsOnlyHistory(es: seq<DisplayStateData>, env: Env)
    requires AllTocStatesValid(es)
    ensures var items := HistoryItems(es, true, env);
      |items| == Min(|es|, MaxRecentFilesInMenu) &&
      forall i :: 0 <= i < |items| ==>
        items[i].BDict? && Keys(items[i].pairs) == AbbreviatedKeys(es[i].decryptionKey.Some?)
  {
    var items := HistoryItems(es, true, env);
    forall i | 0 <= i < |items|
      ensures items[i].BDict? && Keys(items[i].pairs) == AbbreviatedKeys(es[i].decryptionKey.Some?)
    {
      AbbreviatedEntry(es[i], true, env);
    }
  }

  // ------------------------------------------------- the whole file

  /** Writing the record and the history and reading the text back, over
      any prior record, succeeds; it restores the record, reads the
      history in the globals-only mode the record was written with, and
      hands the language name to the language selector once. The tree
      codec is only required to read back this one tree. */
  lemma PrefsRoundTrip(p: GlobalPrefsData, es: seq<DisplayStateData>, prior: GlobalPrefsData, env: Env)
    requires env.modeName(p.defaultDisplayMode).Some? && AllTocStatesValid(es)
    requires env.decodeTree(env.encodeTree(PrefsTree(p, es, env))) == Some(PrefsTree(p, es, env))
    ensures var r := DecodePrefs(env.encodeTree(PrefsTree(p, es, env)), prior, env);
      r.ok &&
      r.prefs == RestoredGlobal(p, prior, env) &&
      r.appended == RoundTrips(es[..Min(|es|, HistoryLimit(p.globalPrefsOnly))], p.globalPrefsOnly, env) &&
      r.langCalls == [Some(p.currentLanguage)]
  {
    var tree := PrefsTree(p, es, env);
    var text := env.encodeTree(tree);
    var root := tree.pairs;
    assert RootDict(text, env) == Some(root);
    assert Lookup(root, GlobalPrefsKey) == Some(BDict(GlobalDict(p, env)));
    assert root[1..] == [Pair(FileHistoryKey, BArray(HistoryItems(es, p.globalPrefsOnly, env)))];
    assert Lookup(root, FileHistoryKey) == Some(BArray(HistoryItems(es, p.globalPrefsOnly, env)));
    assert GlobalSection(text, env) == Some(GlobalDict(p, env));
    assert HistorySection(text, env) == Some(HistoryItems(es, p.globalPrefsOnly, env));
    GlobalRoundTrip(p, prior, env);
    HistoryRoundTrip(es, p.globalPrefsOnly, env);
  }

  /** Loading a file that holds what `Prefs_Serialize` wrote for a record
      and a history reads them back as the whole-file round trip says. */
  lemma LoadAfterSave(path: string, p: GlobalPrefsData, es: seq<DisplayStateData>, prior: GlobalPrefsData, env: Env)
    requires env.modeName(p.defaultDisplayMode).Some? && AllTocStatesValid(es)
    requires env.decodeTree(env.encodeTree(PrefsTree(p, es, env))) == Some(PrefsTree(p, es, env))
    requires env.readAll(path) == Some(env.encodeTree(PrefsTree(p, es, env)))
    requires !TextEmpty(env.readAll(path))
    ensures var r := LoadSpec(Some(path), prior, env);
      r.ok &&
      r.prefs == RestoredGlobal(p, prior, env) &&
      r.appended == RoundTrips(es[..Min(|es|, HistoryLimit(p.globalPrefsOnly))], p.globalPrefsOnly, env) &&
      r.langCalls == [Some(p.currentLanguage)]
  {
    PrefsRoundTrip(p, es, prior, env);
  }
}

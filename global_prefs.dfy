/** The global preferences record (`SerializableGlobalPrefs`): one per
    process, pre-populated with defaults by its owner before a load. */
module GlobalPrefs {
  import opened Options
  import opened CInts
  import opened DisplayStates

  /** The value of every field of the global record. */
  datatype GlobalPrefsData = GlobalPrefsData(
    showToolbar: bool,
    showToc: bool,
    tocDx: int32,
    pdfAssociateDontAskAgain: bool,
    pdfAssociateShouldAssociate: bool,
    bgColor: int32,
    escToExit: bool,
    enableAutoUpdate: bool,
    rememberOpenedFiles: bool,
    globalPrefsOnly: bool,
    defaultDisplayMode: DisplayMode,
    defaultZoom: real,
    windowState: int32,
    windowX: int32,
    windowY: int32,
    windowDx: int32,
    windowDy: int32,
    inverseSearchCmdLine: Option<string>,
    enableTeXEnhancements: bool,
    versionToSkip: Option<string>,
    lastUpdateTime: Option<string>,
    currentLanguage: string,
    fwdsearchOffset: int32,
    fwdsearchColor: int32,
    fwdsearchWidth: int32,
    fwdsearchPermanent: bool)

  /** The global record. Its fields are held together as one record value:
      a store to a field of the source is an update of that field of
      `data`. */
  class SerializableGlobalPrefs {
    var data: GlobalPrefsData

    /** A record holding the owner's defaults. */
    constructor (defaults: GlobalPrefsData)
      ensures data == defaults
    {
      data := defaults;
    }
  }
}

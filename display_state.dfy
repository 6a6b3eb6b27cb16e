/** One entry of the recent-file history: where a document was left and how
    it was shown. */
module DisplayStates {
  import opened Options
  import opened CInts

  /** The display-mode enumeration, carried by its ordinal; its names are
      looked up through the tables passed to the codec. */
  type DisplayMode = int

  /** The value of every field of a DisplayState. `tocState` is the
      length-prefixed buffer of the source: slot 0 holds the count of toc ids
      that follow it. */
  datatype DisplayStateData = DisplayStateData(
    filePath: string,
    decryptionKey: Option<string>,
    useGlobalValues: bool,
    displayMode: DisplayMode,
    pageNo: int32,
    rotation: int32,
    scrollX: int32,
    scrollY: int32,
    windowState: int32,
    windowX: int32,
    windowY: int32,
    windowDx: int32,
    windowDy: int32,
    showToc: bool,
    tocDx: int32,
    zoomVirtual: real,
    tocState: Option<seq<int32>>)

  /** A toc-state buffer is absent, or its count does not run past its end
      (reading `tocState[1..count]` stays inside the buffer). */
  predicate TocStateValid(t: Option<seq<int32>>)
  {
    t.Some? ==> |t.value| >= 1 && t.value[0] as int < |t.value|
  }

  /** Every entry of a history has a well-formed toc buffer. */
  predicate AllTocStatesValid(es: seq<DisplayStateData>)
  {
    forall i :: 0 <= i < |es| ==> TocStateValid(es[i].tocState)
  }

  /** The fields of a freshly constructed DisplayState. */
  const FreshState: DisplayStateData :=
    DisplayStateData("", None, false, 0, 0, 0, 0, 0, 0, 0, 0, 0, 0, false, 0, 0.0, None)

  /** A DisplayState object. Its fields are held together as one record
      value: a store to a field of the source is an update of that field
      of `data`. */
  class DisplayState {
    var data: DisplayStateData

    /** The toc buffer is well formed. */
    predicate Valid()
      reads this
    {
      TocStateValid(data.tocState)
    }

    /** `new DisplayState()`, with the header's field defaults. */
    constructor ()
      ensures data == FreshState && Valid()
    {
      data := FreshState;
    }
  }
}

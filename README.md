# SumatraPDF preference codec

A Dafny model of the preference codec of SumatraPDF (`src/AppPrefs.cpp`).
The codec turns the global preferences record (`SerializableGlobalPrefs`)
and the recent-file history (a `FileHistoryList` of `DisplayState`
objects) into a bencode-style tagged tree and reads them back from one.
The tree is a `Node` datatype: a 64-bit integer, a string, an array, or a
dictionary that keeps its pairs in insertion order, where a lookup answers
with the first pair that carries the key.

Layout:

- `options.dfy`: the `Option` type.
- `cints.dfy`: 32- and 64-bit integers and the `(int)` cast.
- `benc.dfy`: the tree and its typed lookups.
- `display_state.dfy`: one history entry.
- `global_prefs.dfy`: the global record.
- `file_history.dfy`: the history list.
- `app_prefs.dfy`: the codec.
  - Specification functions say what each operation produces. On the writing side they are `GlobalDict`, `EntryDict`, `HistoryItems` and `PrefsTree`. On the reading side they are `DecodeEntry`, `DecodeHistory`, `DecodeGlobal`, `DecodePrefs` and `LoadSpec`.
  - Methods do the same work step by step, as the source does, and are proved against those functions. The source's `Add` calls become appends. Its field stores become record updates. Its loops become `while` and `for` loops.
- `app_prefs_proofs.dfy`: the round-trip and failure properties.

What the codec calls but does not define is passed in as an `Env` value of
functions:

- the display-mode name tables;
- the zoom formatting (`%.4f`) and parsing (`atof`);
- the tree's text codec;
- file reading and writing.

The call to the language selector (`CurrLangNameSet`) is returned as a log
of its arguments.

Where the code differs from what its design describes, the model follows
the code:

- When the history array is missing, loading fails after the global record
  has already been overwritten. It is not left untouched.
- A toc-state element that is not an integer gives slot 0. It is not
  skipped.
- An optional string of the global record is left out of the file only when
  it is null. An empty string is written.
- An entry is dropped when there is no string under its file key. This
  covers a missing key and also a value of another kind.
- The toc ids are written when the buffer's count is positive.

## Model

| member | source | states |
|---|---|---|
| CInts.ToInt32 | src/AppPrefs.cpp:176 | the `(int)` cast of a tree integer: congruent to it modulo 2^32, the identity on values in range |
| AppPrefs.DictGetInt | src/AppPrefs.cpp:172-177 | an integer under the key gives its cast value; an absent key or a non-integer leaves the value unchanged |
| AppPrefs.DictGetBool | src/AppPrefs.cpp:179-184 | an integer under the key gives true exactly when it is not 0; otherwise the value is unchanged |
| AppPrefs.DictGetStr | src/AppPrefs.cpp:186-192 | a string exactly when the key holds a string, and then that string; null otherwise |
| AppPrefs.DictGetStrInto | src/AppPrefs.cpp:194-216 | a string under the key replaces the value; an absent key or a non-string leaves it unchanged |
| AppPrefs.ModeFromName | src/AppPrefs.cpp:236-238 | a name the table knows gives its mode; an unknown name leaves the mode unchanged |
| AppPrefs.ModeField | src/AppPrefs.cpp:236-238 | a string under the key sets the mode through its name; anything else leaves the mode unchanged; a changed mode is the one the table gives for the string (the same read of the global mode is at lines 293-295) |
| AppPrefs.ZoomField | src/AppPrefs.cpp:250-252 | a string under the key sets the zoom to its parse; anything else leaves the zoom unchanged (the same read of the global zoom is at lines 296-298) |
| AppPrefs.AddIfPresent | src/AppPrefs.cpp:55-60 | a string field is appended only when it is not null |
| AppPrefs.PrefsSerializeGlobal | src/AppPrefs.cpp:23-69 | the dictionary built is `GlobalDict` of the record: every field under its key, in `Add` order |
| AppPrefs.TocIds | src/AppPrefs.cpp:108-115 | the toc array holds exactly the count's worth of ids, slot k + 1 at index k, never the count |
| AppPrefs.DisplayStateSerialize | src/AppPrefs.cpp:71-118 | the dictionary built is `EntryDict` of the entry's fields in the given mode |
| AppPrefs.HistoryLimit | src/AppPrefs.cpp:130 | at least 10; exactly 10 in globals-only mode, and INT_MAX otherwise |
| AppPrefs.HistoryItems | src/AppPrefs.cpp:129-139 | min(N, limit) items, at most 10 in globals-only mode; item i is entry i's dictionary |
| AppPrefs.FileHistoryListSerialize | src/AppPrefs.cpp:120-145 | the array built is `HistoryItems` of the list's entries, in list order |
| AppPrefs.PrefsTree | src/AppPrefs.cpp:147-169 | the root holds exactly the keys "gp" and "File History", in that order |
| AppPrefs.PrefsSerialize | src/AppPrefs.cpp:147-169 | the text is the tree codec's encoding of `PrefsTree`, with history truncated by the record's own globals-only flag |
| AppPrefs.TocSlots | src/AppPrefs.cpp:255-267 | n elements give n + 1 slots, count n in slot 0; an integer element is cast into the slot after its index; a non-integer leaves 0 |
| AppPrefs.TocStateDeserialize | src/AppPrefs.cpp:255-267 | the buffer filled in place equals `TocSlots` of the array |
| AppPrefs.Abbreviated | src/AppPrefs.cpp:231-234 | the path and key as given and use-global-values set; every other field as in a fresh state, with no toc buffer |
| AppPrefs.DecodeOverrides | src/AppPrefs.cpp:236-267 | the path and key of the base are kept; an empty dictionary overrides nothing; a well-formed toc buffer stays well formed |
| AppPrefs.DecodeEntry | src/AppPrefs.cpp:218-270 | null exactly when there is no string under the file key; else the path and key are as read and the toc buffer is well formed; in globals-only mode the abbreviated entry whatever else the dictionary holds |
| AppPrefs.DisplayStateDeserialize | src/AppPrefs.cpp:218-270 | null exactly when `DecodeEntry` is; otherwise a fresh, valid state whose fields are `DecodeEntry`'s |
| AppPrefs.DecodeItem | src/AppPrefs.cpp:323-330 | an element contributes one entry exactly when it is a dictionary that decodes, and then that entry |
| AppPrefs.DecodeHistory | src/AppPrefs.cpp:319-330 | no more entries than elements, each with a well-formed toc buffer |
| AppPrefs.DecodeHistorySnoc | src/AppPrefs.cpp:323-330 | one more element appends exactly what that element contributes |
| AppPrefs.AppendHistoryItem | src/AppPrefs.cpp:324-329 | one loop turn appends the element's entry when it decodes, nothing otherwise; earlier states are kept, and any appended state is a newly allocated object |
| AppPrefs.AppendHistory | src/AppPrefs.cpp:322-330 | the list grows by exactly `DecodeHistory` of the array; the states already there are kept |
| AppPrefs.DecodeGlobal | src/AppPrefs.cpp:282-317 | the language field is never written by the read (it goes to the language selector) |
| AppPrefs.ReadGlobalSection | src/AppPrefs.cpp:282-317 | the record becomes `DecodeGlobal` of the section over its old value; the language selector is called once with the string under "UILanguage" |
| AppPrefs.RootDict | src/AppPrefs.cpp:274-277 | a dictionary exactly when the text decodes to a dictionary node, and then its pairs |
| AppPrefs.GlobalSection | src/AppPrefs.cpp:278-280 | a dictionary exactly when the root dictionary holds a dictionary under "gp", and then that dictionary |
| AppPrefs.HistorySection | src/AppPrefs.cpp:319-321 | an array exactly when the root dictionary holds an array under "File History", and then that array |
| AppPrefs.DecodePrefs | src/AppPrefs.cpp:272-337 | no root dictionary or no "gp" dictionary: false, nothing changed; otherwise the globals are read; a missing history array then gives false with the globals already updated; success exactly when both sections exist, and the history is read with the globals-only flag just read |
| AppPrefs.PrefsDeserialize | src/AppPrefs.cpp:272-337 | verdict, record, language calls and appended entries are `DecodePrefs`'s; existing history states are kept |
| AppPrefs.TextEmpty | src/AppPrefs.cpp:360 | a null or zero-length text, or one starting with NUL, is empty; a text that is not empty has a first character other than NUL |
| AppPrefs.LoadSpec | src/AppPrefs.cpp:344-381 | no path, or an empty or unreadable file: false and nothing changed; otherwise `DecodePrefs` of the text |
| AppPrefs.Load | src/AppPrefs.cpp:344-381 | verdict, record, language calls and appended entries are `LoadSpec`'s |
| AppPrefs.Save | src/AppPrefs.cpp:383-399 | false without a path; otherwise the writer's verdict on the encoded `PrefsTree` |
| DisplayStates.DisplayState.constructor | src/AppPrefs.cpp:220 | a fresh state: every field at its initial value, toc buffer absent |
| FileHistory.FileHistoryList.Get | src/AppPrefs.cpp:132 | the state at the index, or null past the end |
| FileHistory.FileHistoryList.Append | src/AppPrefs.cpp:329 | the state is added at the end; the entries grow by its fields |
| AppPrefsProofs.AbbreviatedEntry | src/AppPrefs.cpp:77-84 | in globals-only mode or with use-global-values set, the entry holds exactly the path, the key when there is one and UseGlobalValues = 1, in that order, and no override key |
| AppPrefsProofs.AbbreviatedOverrides | src/AppPrefs.cpp:236-253 | reading an abbreviated entry outside globals-only mode gives the abbreviated entry |
| AppPrefsProofs.FullLookup | src/AppPrefs.cpp:86-117 | a full-form entry holds each per-document field under its own key, the optional ones only when present, and no use-global-values flag |
| AppPrefsProofs.FullHead | src/AppPrefs.cpp:224-238 | path, decryption key and display mode read back, the mode through its name |
| AppPrefsProofs.FullView | src/AppPrefs.cpp:239-242 | page, rotation and scroll read back unchanged |
| AppPrefsProofs.FullWindow | src/AppPrefs.cpp:243-247 | window state and placement read back unchanged |
| AppPrefsProofs.FullPane | src/AppPrefs.cpp:248-253 | showToc and tocDx read back unchanged, zoom through its text, use-global-values keeps the value of the state read over |
| AppPrefsProofs.TocRoundTrip | src/AppPrefs.cpp:255-267 | the ids written for a positive count read back to the count and the ids, in order |
| AppPrefsProofs.FullToc | src/AppPrefs.cpp:255-267 | a toc buffer with a positive count reads back cut after its last id; a count of at most 0, or no buffer, reads back to no buffer |
| AppPrefsProofs.FullFormOverrides | src/AppPrefs.cpp:236-267 | reading a full-form entry over a fresh state restores every per-document field |
| AppPrefsProofs.EntryRoundTrip | src/AppPrefs.cpp:218-270 | reading a written entry in the same mode gives its round trip: the abbreviated entry, or the entry itself with mode, zoom and toc as above |
| AppPrefsProofs.GlobalLookup | src/AppPrefs.cpp:23-69 | the written section holds every global field under its key, the three optional strings only when not null |
| AppPrefsProofs.GlobalRestoresFlags | src/AppPrefs.cpp:282-291 | the toolbar, toc, association, colour, escape, update, reopen and globals-only fields read back unchanged |
| AppPrefsProofs.GlobalRestoresView | src/AppPrefs.cpp:293-304 | the default mode reads back through its name, the zoom through its text, the window placement unchanged |
| AppPrefsProofs.GlobalRestoresExtras | src/AppPrefs.cpp:306-309 | the TeX flag reads back; each optional string reads back when written, else keeps its prior value |
| AppPrefsProofs.GlobalRestoresTail | src/AppPrefs.cpp:311-317 | the language name is found for the selector; the forward-search fields read back unchanged |
| AppPrefsProofs.GlobalRoundTrip | src/AppPrefs.cpp:282-317 | reading a written section over any prior record gives `RestoredGlobal`, which is the record except for mode, zoom, null strings and the language |
| AppPrefsProofs.DecodeHistoryConcat | src/AppPrefs.cpp:323-330 | the entries of a + b are those of a followed by those of b |
| AppPrefsProofs.DecodeHistorySkip | src/AppPrefs.cpp:324-328 | an element that is not a dictionary, or has no file string, is skipped and the rest keep their order |
| AppPrefsProofs.DecodeHistoryKeep | src/AppPrefs.cpp:327-329 | a dictionary with a file string contributes its entry in its place |
| AppPrefsProofs.HistoryPrefixRoundTrip | src/AppPrefs.cpp:319-330 | the first k written elements read back to the round trips of the first k entries |
| AppPrefsProofs.HistoryRoundTrip | src/AppPrefs.cpp:129-139 | a written history reads back to the round trips of its first min(N, limit) entries, in order |
| AppPrefsProofs.GlobalsOnlyHistory | src/AppPrefs.cpp:131-139 | in globals-only mode min(N, 10) entries are written, each holding only the abbreviated keys |
| AppPrefsProofs.PrefsRoundTrip | src/AppPrefs.cpp:272-337 | reading a written file succeeds; it restores the record as `RestoredGlobal` and the history in the written globals-only mode, and calls the selector with the language |
| AppPrefsProofs.LoadAfterSave | src/AppPrefs.cpp:344-363 | loading a file that holds a written tree gives the same outcome as `PrefsRoundTrip` |

## Left out

- File I/O (`file_read_all`, `write_to_file`) is replaced by `Env.readAll` and `Env.writeAll`. The model does not relate what is written to what is later read.
- The text grammar of the tree (`BencObj::Decode`, `BencDict::Encode`) is replaced by `Env.decodeTree` and `Env.encodeTree`. The whole-file round trip assumes only that the decoder reads back the one tree written.
- The zoom is a `real` whose `%.4f` text and `atof` parse are the opaque `Env.formatZoom` and `Env.parseZoom`. The round trips state the zoom as `parseZoom(formatZoom(z))`. No floating-point precision is modelled.
- The display-mode tables `DisplayModeNameFromEnum` and `DisplayModeEnumFromName` are the opaque `Env.modeName` and `Env.modeFromName`.
- ModeFromName: assumes that `DisplayModeEnumFromName` leaves its out-parameter untouched for a name it does not know. Its body is not part of this model, and the source ignores its return value (src/AppPrefs.cpp lines 238 and 295).
- The static `ParseDisplayMode` (src/AppPrefs.cpp lines 14-19) is left out: nothing in the file calls it. Lines 238 and 295 call `DisplayModeEnumFromName` directly.
- `CurrLangNameSet` has a process-wide effect. The model records the argument of each call instead.
- `CurrLangNameSet` is only declared `extern` (src/AppPrefs.cpp line 12). The model assumes that it does not read or write the global preferences record. `ReadGlobalSection` depends on this assumption when it works on a local copy, and so does `RestoredGlobal` when it keeps `prior.currentLanguage`.
- Allocation failure is not modelled:
  - a `new`, `SAZA` or `str_printf` that returns NULL;
  - an error path that deletes a partly built tree.
- `free` and `StrCopy` ownership and the TCHAR conversion in `dict_get_tstr` are not modelled. Strings are values.
- Every `assert` in the file is debug-only, and the model follows the release build. This covers `assert(txt)`, `assert(fileHistory)`, `assert(dict)`, `assert(!loaded)`, `assert(filepath)`, `assert(ok)` and `assert(dataLen > 0)`.
- The `#if 0` file-exists filter is left out.
- `Save`'s `StrLen` of the encoded text is left out.
- The key strings, `MAX_RECENT_FILES_IN_MENU` and the field defaults of `DisplayState` come from headers that are not part of this model (`AppPrefs.h`, `DisplayState.h`).
  - The key strings use SumatraPDF's values. The proofs need only that they are distinct.
  - The limit is 10.
  - A fresh state has zero or empty fields (`FreshState`).
- `DisplayState` and `SerializableGlobalPrefs` are classes whose fields are held as one record value, `data`. A store to a source field is an update of that field of `data`.
- `scrollPos` and `windowPos` are flattened into separate fields.
- The `dict_get_*` helpers overwrite a reference parameter. In the model they are functions: they take the old value and return the new one.
- ReadGlobalSection: it reads the section into a local copy of the record and stores the copy back at the end. The source writes each field in turn. No other code runs in between except the language selector. The copy is faithful only under the `CurrLangNameSet` assumption above.
- AppendHistory: does not state that the appended states are freshly allocated objects, although each loop turn (`AppendHistoryItem`) does. Carrying freshness through the loop invariant, alongside the invariant on the entries, makes the proof too costly to verify reliably. The method states the appended states' fields and that the states already in the list are kept.
- PrefsDeserialize: does not state that the appended states are freshly allocated. The reason is the same as for AppendHistory.
- Load: does not state that the appended states are freshly allocated. The reason is the same as for AppendHistory.
- PrefsSerializeGlobal: requires the record's default display mode to have a name. The source passes that name straight to `Add`, so a null name is outside its contract.
- PrefsSerialize and Save carry the same requirement as PrefsSerializeGlobal.
- Save: a null history list is outside the model, because `FileHistoryListSerialize`, `PrefsSerialize` and `Save` take `FileHistoryList`, a non-null class type. In the release build, src/AppPrefs.cpp lines 122-123 return NULL for a null list, `Prefs_Serialize` passes that NULL on (lines 159-160), and `Save` answers false (lines 391-392). The model has no counterpart of that false answer.
- GlobalPrefsData: `currentLanguage` is a `string`, never null, because line 62 passes `m_currentLanguage` straight to `Add`. A null language is outside the model.
- DisplayStateData: `filePath` is a `string`, never null, because line 77 passes `ds->filePath` straight to `Add`. A serialised state with a null path is outside the model. The reader still handles a missing file key.

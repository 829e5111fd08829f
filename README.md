# gpredict first-run probe and QTH editor, modelled in Dafny

This project models two small sequential parts of gpredict, a satellite
tracking program.

**First-run completeness probe** (`FirstTimeCheck`, `FirstTime`). At startup,
gpredict checks that the user configuration directory is complete. Seven checks
each produce 0 or their own bits of the `ftc_status` enumeration. The checks
look for:

- `gpredict.cfg`;
- a `.qth` file in the configuration directory;
- a `.mod` file in `modules`;
- a `.sat` file and a `.cat` file in `satdata`;
- the directories `satdata/cache`, `hwconf` and `trsp`.

`first_time_check_run` ORs the seven results together.

The filesystem is a `Snapshot` value:

- a boolean for `gpredict.cfg`;
- a `Listing` for each scanned directory, which is either `Unreadable` or the
  entry names in the order `g_dir_read_name` returns them;
- booleans for the three directory tests.

Each check is a method with the source's loop. The `.qth` and `.mod` scans share
`FindSuffix`, which stops at the first match. The `.sat`/`.cat` scan reads every
entry.

The function `Probe` specifies the whole run. No undefined bit is ever set, and
`ProbeFlags` proves that a flag is set exactly when its artifact is missing.
`Run` is proved equal to `Probe`.

**QTH editor** (`QthEditorWidget`). The QTH editor edits the ground location:

- name;
- Maidenhead locator;
- latitude and longitude magnitudes with North/South and East/West selectors;
- altitude.

The class `QthEditor` holds these widget values and the blocked state of the
five signal handler ids.

Programmatic widget writes are methods: `SetQraText`, `SetLatValue`,
`SetLonValue`, `SetNsActive` and `SetEwActive`. A write that leaves the widget's
value as it was emits no signal, as GTK does. Otherwise it calls its handler
when that handler's block count is zero. This makes the calls between handlers
real and mutually recursive. Dafny proves that this recursion terminates. A
ghost `trace` records every handler entry.

`latlon_changed` and `qra_changed` are each proved to:

- leave exactly their own entry in the trace, so each re-enters neither itself
  nor the other;
- leave the block counts as they found them.

`name_changed` does re-enter itself. Its "changed" handler is never blocked. So
each deletion that removes a character runs `name_changed` again, at once, on
the shortened text, while the outer run goes on scanning its copy of the old
text. The specification function `NameRun` follows this recursion. It gives the
text left, the number of handler runs and the number of editor "changed"
emissions. `NameChanged` is proved to match it, including one trace entry per
run and no entry of any other handler. One consequence is that pasting several
rejected characters can delete accepted text after them
(`PastedRejectsOverDelete`).

The geodesy library's `longlat2locator` and `locator2longlat` are functions
given to the constructor. They are not modelled further.

The code is weaker than the editor's intended design in one respect, and the
model follows the code. The locator and the coordinates are not always
consistent. A locator that fails to decode stays in the entry while the
coordinates keep their old values. An encoding failure leaves the old locator
beside the new coordinates.

## Model

| member | source | states |
|---|---|---|
| `FirstTimeCheck.Value` | src/first_time_check.h:33-40 | each enumerator is a single bit between 2 and 256, never bit 0, and is part of the union of all flags |
| `FirstTimeCheck.FlagsDisjoint` | src/first_time_check.h:32-41 | two enumerators share a bit iff they are the same enumerator |
| `FirstTimeCheck.AllFlagsValue` | src/first_time_check.h:33-40 | the union of all flags is 0x1FE: bit 0 unused, below 512 |
| `FirstTimeCheck.AllFlagsCovered` | src/first_time_check.h:32-41 | every single bit inside the union is the value of some enumerator |
| `FirstTimeCheck.ComposeRecovers` | src/first_time_check.h:31-41 | testing a flag's bit in an OR of flags is true iff that flag was OR-ed in; the OR has no bit outside the defined flags |
| `FirstTime.Probe` | src/first-time.c:89-102 | the run's value has only defined bits set, bit 0 never |
| `FirstTime.ProbeFlags` | src/first-time.c:89-102 | each flag of the run's value is set iff its artifact is missing from the snapshot, so no check clears another's bit |
| `FirstTime.Run` | src/first-time.c:89-102 | accumulating the seven checks with `|=` yields exactly `Probe` of the snapshot |
| `FirstTime.CheckCfg` | src/first-time.c:110-129 | 0 iff gpredict.cfg exists, otherwise exactly NO_CFG |
| `FirstTime.FindSuffix` | src/first-time.c:146-163 | the scan that stops at the first match finds a match iff the directory opens and some entry has the suffix, the same answer as a full scan |
| `FirstTime.CheckQth` | src/first-time.c:137-169 | 0 iff some entry of the configuration directory ends in `.qth`; an unopenable directory or no such entry gives exactly NO_QTH |
| `FirstTime.CheckMod` | src/first-time.c:176-209 | 0 iff some entry of `modules` ends in `.mod`, otherwise exactly NO_MOD |
| `FirstTime.SatCatExclusive` | src/first-time.c:237-240 | no name ends in both `.sat` and `.cat`, so the `else if` never hides a `.cat` file |
| `FirstTime.CheckSat` | src/first-time.c:217-252 | NO_SAT set iff no entry ends in `.sat`, NO_CAT set iff no entry ends in `.cat`, independently; no other bit; a missing directory gives both |
| `FirstTime.CheckCache` | src/first-time.c:259-275 | 0 iff `satdata/cache` is a directory, otherwise exactly NO_CACHE |
| `FirstTime.CheckHwconf` | src/first-time.c:282-296 | 0 iff `hwconf` is a directory, otherwise exactly NO_HWCONF |
| `FirstTime.CheckTrsp` | src/first-time.c:303-317 | 0 iff `trsp` is a directory, otherwise exactly NO_TRSP |
| `FirstTime.FreshInstallScenario` | src/first-time.c:89-102 | gpredict.cfg plus one `.qth` file and nothing else yields exactly NO_MOD, NO_SAT, NO_CAT, NO_CACHE, NO_HWCONF and NO_TRSP |
| `QthEditorWidget.QthEditor.constructor` | src/widgets/qth_editor.c:108-208 | a new editor selects East and North, has altitude and both magnitudes at 0, empty entries, no handler blocked |
| `QthEditorWidget.QthEditor.GetQth` | src/widgets/qth_editor.c:210-231 | name, locator and altitude copied; longitude negated iff West is selected, latitude negated iff South is selected; both within ±180 / ±90 |
| `QthEditorWidget.QthEditor.NameChanged` | src/widgets/qth_editor.c:246-285 | the text, the editor "changed" emissions and the trace are those of `NameRun`, which re-runs the handler after every deletion that removes a character; only name_changed entries are added to the trace; the cursor, the other widgets and the block counts are unchanged |
| `QthEditorWidget.QthEditor.FilterChar` | src/widgets/qth_editor.c:263-278 | one character of the copy: an accepted one changes nothing; a rejected one deletes at the cursor and, when that removes a character, the nested run of `NameRun` follows |
| `QthEditorWidget.QthEditor.SetNameText` | src/widgets/qth_editor.c:128-130 | a user edit of the name entry keeps at most 100 characters; an edit that leaves the text as it was runs no handler, any other runs the name filter as `NameRun` says |
| `QthEditorWidget.QthEditor.SetAltValue` | src/widgets/qth_editor.c:197-198 | the altitude stays in [-1000, 20000] and nothing else changes |
| `QthEditorWidget.QthEditor.SetQraText` | src/widgets/qth_editor.c:137-141 | setting the current text again changes nothing and runs no handler; otherwise the locator keeps at most 6 characters, and if blocked nothing else changes and no handler runs, else exactly qra_changed runs |
| `QthEditorWidget.QthEditor.SetLatValue` | src/widgets/qth_editor.c:173-179 | the latitude magnitude is clamped to [0, 90]; if that leaves it as it was, or the handler is blocked, the locator is unchanged and no handler runs; otherwise exactly latlon_changed runs and re-encodes the locator |
| `QthEditorWidget.QthEditor.SetLonValue` | src/widgets/qth_editor.c:148-154 | the longitude magnitude is clamped to [0, 180]; if that leaves it as it was, or the handler is blocked, the locator is unchanged and no handler runs; otherwise exactly latlon_changed runs |
| `QthEditorWidget.QthEditor.SetNsActive` | src/widgets/qth_editor.c:185-191 | the North/South index is set; selecting the current index, or a blocked handler, runs no handler; otherwise exactly latlon_changed runs |
| `QthEditorWidget.QthEditor.SetEwActive` | src/widgets/qth_editor.c:160-166 | the East/West index is set; selecting the current index, or a blocked handler, runs no handler; otherwise exactly latlon_changed runs |
| `QthEditorWidget.QthEditor.LatLonChanged` | src/widgets/qth_editor.c:295-348 | on encode success the locator is the 3-pair encoding of the signed coordinates, on failure unchanged; nothing else changes; block counts restored; qra_changed is not entered |
| `QthEditorWidget.QthEditor.QraChanged` | src/widgets/qth_editor.c:357-416 | on decode success, ns/ew are 0 iff lat/lon > 0, the spins hold the magnitudes, and the locator is upper-cased, so in-range coordinates read back exactly as decoded; on failure nothing changes; block counts restored; no handler is entered |
| `QthEditorWidget.EnterLocator` | src/widgets/qth_editor.c:366-399 | typing a locator into the idle editor and reading the QTH gives the decoded coordinates exactly when they are in range, with the locator upper-cased; an undecodable locator leaves the coordinates and stays as typed; entering the locator already shown runs no handler and changes nothing |
| `QthEditorWidget.DeleteAt` | src/widgets/qth_editor.c:275-276 | deleting at the cursor removes exactly the character there, or nothing at the end of the text |
| `QthEditorWidget.Truncate` | src/widgets/qth_editor.c:138 | an entry with a maximum length keeps a prefix of at most that length, the whole text when it fits |
| `QthEditorWidget.Clamp` | src/widgets/qth_editor.c:173 | a spin value lies in the spin's range, and an in-range value is kept |
| `QthEditorWidget.Abs` | src/widgets/qth_editor.c:394-395 | the magnitude is non-negative and equals the value or its negation |
| `QthEditorWidget.SelectorFor` | src/widgets/qth_editor.c:384-392 | index 0 (North/East) iff the decoded value is strictly positive, otherwise 1 |
| `QthEditorWidget.SignedMagnitudeRoundTrip` | src/widgets/qth_editor.c:384-395 | a value within range, stored as magnitude plus selector, reads back as itself, including 0 stored as South/West |
| `QthEditorWidget.AsciiUpperSpec` | src/widgets/qth_editor.c:397-399 | upper-casing keeps the length, maps each character to its ASCII upper case and leaves no lower-case letter |
| `QthEditorWidget.AsciiUpperIdempotent` | src/widgets/qth_editor.c:397-399 | upper-casing the locator twice equals upper-casing it once |
| `QthEditorWidget.RejectedZeroIff` | src/widgets/qth_editor.c:261-279 | nothing is rejected iff every character is in `[0-9a-zA-Z ._-]` |
| `QthEditorWidget.NameFilterDeletesAtCursor` | src/widgets/qth_editor.c:273-277 | the filter, nested runs included, only deletes a block of characters right after the cursor; the text before the cursor is kept |
| `QthEditorWidget.NameFilterRemovesRejected` | src/widgets/qth_editor.c:261-279 | the filter deletes at least one character per rejected character, or everything after the cursor |
| `QthEditorWidget.NameFilterUnchangedIff` | src/widgets/qth_editor.c:257-280 | the text is unchanged iff nothing is rejected or the cursor is at the end |
| `QthEditorWidget.NameFilterKeepsValid` | src/widgets/qth_editor.c:261-284 | text made only of accepted characters is left unchanged, in one run that emits "changed" iff the text is not empty |
| `QthEditorWidget.TypedRejectRemoved` | src/widgets/qth_editor.c:261-284 | one rejected character typed at the cursor between accepted text is removed and nothing else is, in two runs of the handler |
| `QthEditorWidget.NameFilterExample` | src/widgets/qth_editor.c:261-284 | "My-Home_1#" with the cursor before '#' is filtered to "My-Home_1" |
| `QthEditorWidget.PastedRejectsOverDelete` | src/widgets/qth_editor.c:261-284 | "ab##cd" with the cursor before the first '#' is filtered to "abd": the nested run removes the second '#', and the outer scan then deletes the 'c'; four runs emit "changed" four times |

## Left out

- `src/first_time_wizard.c` is not part of this model. It only appends placeholder pages and wires quit/destroy, and it ignores the status.
- Logging is not modelled: `sat_log_log`, `FTC_DEBUG` and the error log at the start of `first_time_check_sat`.
- The audible reject signal `gdk_beep` and the `%.2f` formatting are not modelled.
- Path building (`get_user_conf_dir` and the other directory getters) is not modelled; the snapshot gives the result of each location test directly.
- `g_file_test` and the `g_dir_*` calls become `Snapshot` fields. The probe is a point-in-time snapshot and does not model concurrent filesystem changes.
- The doc comment of `first_time_check_mod` names `FTC_STATUS_NO_QTH`; the model follows the code, which returns `FTC_STATUS_NO_MOD`.
- Memory management (`g_free`, `g_strdup`, `g_try_malloc`) is not modelled, and neither is allocation failure. The encoder given to the constructor is one fixed function, so it cannot fail on one call and succeed on the next for the same coordinates.
- GType/class registration, destroy hooks, widget layout and the no-op `qth_editor_update` are not modelled.
- The Maidenhead mathematics of the geodesy library is not modelled. Encode and decode are arbitrary functions passed in, so no encode/decode round trip is claimed.
- Coordinates are `real`, not IEEE doubles. `fabs` is absolute value. The `-0.0` that `qth_editor_get_qth` produces for a zero South latitude reads as 0.
- QthEditorWidget.QthEditor.SetLatValue: the change test compares the clamped value exactly. GTK's `gtk_spin_button_set_value` also ignores a new value within 1e-10 of the current one, and that tolerance is not modelled.
- QthEditorWidget.QthEditor.SetLonValue: the same exact change test as `SetLatValue`, without GTK's 1e-10 tolerance.
- QthEditorWidget.QthEditor.QraChanged: the exact read-back of decoded coordinates depends on that exact change test. In GTK a decoded magnitude within 1e-10 of the one shown is not stored.
- QthEditorWidget.EnterLocator: the same 1e-10 caveat as `QraChanged` applies to the coordinates read back.
- The name filter is modelled over ASCII text only. The loop uses the UTF-8 character count as a byte count, and the two agree only for ASCII.
- The cursor position that `gtk_editable_get_position` reports during a change is a field set by the user edit (`SetNameText`). GTK's own cursor bookkeeping is not modelled. Deleting the character after the cursor does not move it, so it keeps its value through `name_changed`.
- Spin clamping is modelled only as clamping to the declared ranges; step increments and display digits are not modelled.
- QthEditorWidget.QthEditor.SetNsActive: requires index 0 or 1, the only indices the source passes to the selectors.

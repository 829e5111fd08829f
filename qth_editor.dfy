/** The QTH (ground location) editor widget: a name entry, a Maidenhead
    locator entry, latitude/longitude magnitude spins with North/South and
    East/West selectors, and an altitude spin. Changing the coordinates
    recomputes the locator; changing the locator recomputes the coordinates.
    Signal handlers are blocked around programmatic writes so that neither
    update re-enters the other. */
module QthEditorWidget {

  datatype Option<T> = None | Some(value: T)

  /** A (longitude, latitude) pair in signed degrees, as locator2longlat
      returns it. */
  datatype LonLat = LonLat(lon: real, lat: real)

  /** The location record that qth_editor_get_qth fills in (the qth_t
      fields this widget writes). */
  datatype Qth = Qth(name: string, qra: string, lon: real, lat: real, alt: real)

  /** The editor's signal handlers, as recorded when they are entered. */
  datatype Handler = NameHandler | LatLonHandler | QraHandler

  /** How many times each handler id is blocked (g_signal_handler_block
      nests: a handler runs again only once every block is released). */
  datatype BlockCounts = BlockCounts(qra: nat, lat: nat, lon: nat, ns: nat, ew: nat)

  const NAME_MAX_LENGTH := 100
  const QRA_MAX_LENGTH := 6
  /** Number of character pairs in the locator longlat2locator produces. */
  const LOCATOR_PAIRS := 3
  const LAT_MAX: real := 90.0
  const LON_MAX: real := 180.0
  const ALT_MIN: real := -1000.0
  const ALT_MAX: real := 20000.0
  /** Combo box indices: 0 is North / East, 1 is South / West. */
  const NORTH_EAST := 0
  const SOUTH_WEST := 1

  /** The characters the name entry accepts: [0-9a-zA-Z ._-]. */
  predicate IsNameChar(c: char) {
    ('0' <= c <= '9') || ('a' <= c <= 'z') || ('A' <= c <= 'Z')
    || c == ' ' || c == '.' || c == '-' || c == '_'
  }

  /** gtk_editable_delete_text(pos, pos + 1): removes the character at
      `pos`, or nothing when `pos` is at the end of the text. */
  function DeleteAt(s: string, pos: nat): (r: string)
    ensures pos < |s| ==> |r| == |s| - 1 && r[..pos] == s[..pos] && r[pos..] == s[pos + 1..]
    ensures pos >= |s| ==> r == s
  {
    if pos < |s| then s[..pos] + s[pos + 1..] else s
  }

  /** The number of characters of `s` the name filter rejects. */
  function Rejected(s: string): nat
  {
    if s == [] then 0 else (if IsNameChar(s[0]) then 0 else 1) + Rejected(s[1..])
  }

  /** What a run of name_changed amounts to: the text it leaves, how many
      runs of the handler it made (itself and every nested one), and how
      many times the editor's "changed" signal was emitted. */
  datatype NameOutcome = NameOutcome(text: string, runs: nat, emits: nat)

  /** `n` entries of name_changed in the handler trace. */
  function NameHandlers(n: nat): seq<Handler>
  {
    seq(n, _ => NameHandler)
  }

  /** One run of name_changed on text `s` with the cursor at `pos`: it scans
      a copy of `s`; each deletion that removes a character emits the
      entry's "changed" at once, which re-enters name_changed on the
      shortened text. Afterwards it emits the editor's "changed" when the
      text is not empty. The cursor stays put, since only text after it is
      deleted. */
  function NameRun(s: string, pos: nat): (r: NameOutcome)
    decreases |s|, 2, 0
    ensures |r.text| <= |s|
  {
    var scan := NameScan(s, 0, NameOutcome(s, 1, 0), pos);
    scan.(emits := scan.emits + if |scan.text| > 0 then 1 else 0)
  }

  /** The scan of name_changed from the character `entry[j]` of its copy
      on, with `acc` the outcome so far. */
  function NameScan(entry: string, j: nat, acc: NameOutcome, pos: nat): (r: NameOutcome)
    requires j <= |entry|
    decreases |acc.text|, 1, |entry| - j
    ensures |r.text| <= |acc.text|
  {
    if j == |entry| then acc else NameScan(entry, j + 1, ScanStep(entry[j], acc, pos), pos)
  }

  /** What one character `c` of the copy does to the outcome so far: a
      rejected one deletes the character at the cursor, if there is one,
      and the nested run on the shortened text follows. */
  function ScanStep(c: char, acc: NameOutcome, pos: nat): (r: NameOutcome)
    decreases |acc.text|, 0, 0
    ensures |r.text| <= |acc.text|
  {
    if !IsNameChar(c) && pos < |acc.text| then
      var nested := NameRun(DeleteAt(acc.text, pos), pos);
      NameOutcome(nested.text, acc.runs + nested.runs, acc.emits + nested.emits)
    else acc
  }

  /** `r` is `s` with a block of characters right after the cursor `pos`
      removed. */
  ghost predicate DeletedAfter(s: string, r: string, pos: nat) {
    pos <= |r| <= |s| && r[..pos] == s[..pos] && r[pos..] == s[|s| - (|r| - pos)..]
  }

  /** g_ascii_toupper on one character. */
  function AsciiUpperChar(c: char): char {
    if 'a' <= c <= 'z' then (c as int - 'a' as int + 'A' as int) as char else c
  }

  /** g_ascii_strup: upper-cases ASCII letters, leaves every other character. */
  function AsciiUpper(s: string): string
  {
    if s == [] then [] else [AsciiUpperChar(s[0])] + AsciiUpper(s[1..])
  }

  /** gtk_entry_set_text on an entry with a maximum length keeps only the
      first `max` characters. */
  function Truncate(s: string, max: nat): (r: string)
    ensures |r| <= max
    ensures |s| <= max ==> r == s
    ensures r == s[..|r|]
  {
    if |s| <= max then s else s[..max]
  }

  /** gtk_spin_button_set_value keeps the value inside the spin's range. */
  function Clamp(v: real, lo: real, hi: real): (r: real)
    requires lo <= hi
    ensures lo <= r <= hi
    ensures lo <= v <= hi ==> r == v
  {
    if v < lo then lo else if v > hi then hi else v
  }

  function Abs(v: real): (r: real)
    ensures r >= 0.0
    ensures r == v || r == -v
  {
    if v < 0.0 then -v else v
  }

  /** A magnitude and a combo index composed into a signed value: index 0
      keeps the sign, any other index negates. */
  function Signed(magnitude: real, index: int): real {
    if index != 0 then -magnitude else magnitude
  }

  /** The combo index qra_changed selects for a decoded value: 0 (North /
      East) only for a strictly positive value, so 0 itself selects South / West. */
  function SelectorFor(v: real): (i: int)
    ensures i == NORTH_EAST <==> v > 0.0
    ensures i == NORTH_EAST || i == SOUTH_WEST
  {
    if v > 0.0 then NORTH_EAST else SOUTH_WEST
  }

  /** The QTH editor's state: the contents of its widgets and the block
      state of its handler ids. */
  class QthEditor {
    var name: string         // name_entry text
    var cursor: nat          // name_entry cursor position
    var qra: string          // qra_entry text
    var lat: real            // lat_spin value (magnitude)
    var lon: real            // lon_spin value (magnitude)
    var ns: int              // ns combo index: 0 North, 1 South
    var ew: int              // ew combo index: 0 East, 1 West
    var alt: real            // alt_spin value
    var blocked: BlockCounts // qra_sigid, lat_sigid, lon_sigid, ns_sigid, ew_sigid

    /** The handlers entered so far, in order. */
    ghost var trace: seq<Handler>

    /** longlat2locator(lon, lat, pairs) of the geodesy library. */
    const encode: (real, real, int) -> Option<string>
    /** locator2longlat(locator) of the geodesy library. */
    const decode: string -> Option<LonLat>

    /** The ranges the widgets enforce. */
    ghost predicate Valid()
      reads this
    {
      cursor <= |name| <= NAME_MAX_LENGTH
      && |qra| <= QRA_MAX_LENGTH
      && 0.0 <= lat <= LAT_MAX
      && 0.0 <= lon <= LON_MAX
      && (ns == NORTH_EAST || ns == SOUTH_WEST)
      && (ew == NORTH_EAST || ew == SOUTH_WEST)
      && ALT_MIN <= alt <= ALT_MAX
    }

    /** The signed longitude the widgets show (West negative). */
    function SignedLon(): real
      reads this
    {
      Signed(lon, ew)
    }

    /** The signed latitude the widgets show (South negative). */
    function SignedLat(): real
      reads this
    {
      Signed(lat, ns)
    }

    /** The locator text latlon_changed leaves: the encoding of the signed
        coordinates when it succeeds, the previous text when it fails. */
    function LocatorAfterEncode(previous: string): string
      reads this
    {
      match encode(SignedLon(), SignedLat(), LOCATOR_PAIRS)
      case Some(loc) => Truncate(loc, QRA_MAX_LENGTH)
      case None => previous
    }

    /** No handler id is blocked: the state between user events. */
    predicate Idle()
      reads this
    {
      blocked == BlockCounts(0, 0, 0, 0, 0)
    }

    /** qth_editor_new: empty entries, East and North selected, every spin
        at 0, no handler blocked. */
    constructor (encode: (real, real, int) -> Option<string>, decode: string -> Option<LonLat>)
      ensures Valid() && Idle()
      ensures ew == NORTH_EAST && ns == NORTH_EAST && alt == 0.0
      ensures lat == 0.0 && lon == 0.0 && name == [] && qra == [] && cursor == 0
      ensures this.encode == encode && this.decode == decode
      ensures trace == []
    {
      name, cursor, qra := [], 0, [];
      lat, lon := 0.0, 0.0;
      ew, ns := NORTH_EAST, NORTH_EAST;
      alt := 0.0;
      blocked := BlockCounts(0, 0, 0, 0, 0);
      trace := [];
      this.encode, this.decode := encode, decode;
    }

    /** qth_editor_get_qth: the name, locator and altitude as shown, and the
        coordinates signed by the selectors (West and South negative). */
    method GetQth() returns (q: Qth)
      requires Valid()
      ensures q.name == name && q.qra == qra && q.alt == alt
      ensures q.lon == (if ew == SOUTH_WEST then -lon else lon)
      ensures q.lat == (if ns == SOUTH_WEST then -lat else lat)
      ensures q.lon == SignedLon() && q.lat == SignedLat()
      ensures -LON_MAX <= q.lon <= LON_MAX && -LAT_MAX <= q.lat <= LAT_MAX
      ensures ALT_MIN <= q.alt <= ALT_MAX
    {
      var qlon := lon;
      if ew != 0 {
        qlon := -qlon;
      }
      var qlat := lat;
      if ns != 0 {
        qlat := -qlat;
      }
      q := Qth(name, qra, qlon, qlat, alt);
    }

    /** name_changed: scans a copy of the text; for every character that is
        not accepted it beeps and deletes one character at the cursor, and
        each deletion that removes one re-enters the handler through the
        entry's "changed" signal. Returns how many times the editor's
        "changed" was emitted, counting the nested runs. */
    method NameChanged() returns (emits: nat)
      requires Valid()
      modifies this`name, this`trace
      decreases |name|, 1
      ensures Valid()
      ensures var r := NameRun(old(name), cursor);
              name == r.text && emits == r.emits && trace == old(trace) + NameHandlers(r.runs)
      ensures cursor == old(cursor) && qra == old(qra) && lat == old(lat) && lon == old(lon)
      ensures ns == old(ns) && ew == old(ew) && alt == old(alt) && blocked == old(blocked)
    {
      trace := trace + [NameHandler];
      assert NameHandlers(1) == [NameHandler];
      emits := 0;
      var entry := name;
      ghost var acc := NameOutcome(entry, 1, 0);
      ghost var scan := NameScan(entry, 0, acc, cursor);
      if |entry| > 0 {
        var j := 0;
        while j < |entry|
          invariant 0 <= j <= |entry|
          invariant cursor <= |name| <= |entry|
          invariant acc.text == name && acc.emits == emits
          invariant NameScan(entry, j, acc, cursor) == scan
          invariant trace == old(trace) + NameHandlers(acc.runs)
        {
          ghost var step := ScanStep(entry[j], NameOutcome(name, 0, 0), cursor);
          var nested := FilterChar(entry[j]);
          emits := emits + nested;
          NameHandlersAppend(acc.runs, step.runs);
          ScanStepShift(entry[j], acc, cursor);
          acc := ScanStep(entry[j], acc, cursor);
          j := j + 1;
        }
      }
      if |name| > 0 {
        emits := emits + 1;
      }
    }

    /** One character `c` of name_changed's copy: a rejected one beeps and
        deletes the character at the cursor, and a deletion that removes
        one re-enters name_changed. Returns the emissions of that nested
        run. */
    method FilterChar(c: char) returns (nested: nat)
      requires Valid()
      modifies this`name, this`trace
      decreases |name|, 0
      ensures Valid()
      ensures var r := ScanStep(c, NameOutcome(old(name), 0, 0), cursor);
              name == r.text && nested == r.emits && trace == old(trace) + NameHandlers(r.runs)
      ensures cursor == old(cursor) && qra == old(qra) && lat == old(lat) && lon == old(lon)
      ensures ns == old(ns) && ew == old(ew) && alt == old(alt) && blocked == old(blocked)
    {
      nested := 0;
      if !IsNameChar(c) {
        var before := |name|;
        name := DeleteAt(name, cursor);
        if |name| < before {
          nested := NameChanged();
        }
      }
      assert old(trace) + NameHandlers(0) == old(trace);
    }

    /** The user edits the name entry, leaving the text `text` (cut to the
        entry's maximum length) and the cursor at `pos`: when the text
        differs from the current one, name_changed runs. */
    method SetNameText(text: string, pos: nat) returns (emits: nat)
      requires Valid()
      modifies this
      ensures Valid()
      ensures var t := Truncate(text, NAME_MAX_LENGTH);
              cursor == (if pos <= |t| then pos else |t|)
      ensures Truncate(text, NAME_MAX_LENGTH) == old(name) ==>
                name == old(name) && emits == 0 && trace == old(trace)
      ensures var t := Truncate(text, NAME_MAX_LENGTH);
              t != old(name) ==>
                var r := NameRun(t, cursor);
                name == r.text && emits == r.emits && trace == old(trace) + NameHandlers(r.runs)
      ensures qra == old(qra) && lat == old(lat) && lon == old(lon)
      ensures ns == old(ns) && ew == old(ew) && alt == old(alt) && blocked == old(blocked)
    {
      var t := Truncate(text, NAME_MAX_LENGTH);
      cursor := if pos <= |t| then pos else |t|;
      if t != name {
        name := t;
        emits := NameChanged();
      } else {
        emits := 0;
      }
    }

    /** The altitude spin, which has no handler. */
    method SetAltValue(v: real)
      requires Valid()
      modifies this
      ensures Valid()
      ensures alt == Clamp(v, ALT_MIN, ALT_MAX)
      ensures name == old(name) && cursor == old(cursor) && qra == old(qra)
      ensures lat == old(lat) && lon == old(lon) && ns == old(ns) && ew == old(ew)
      ensures blocked == old(blocked) && trace == old(trace)
    {
      alt := Clamp(v, ALT_MIN, ALT_MAX);
    }

    /** gtk_entry_set_text on the locator entry: a text equal to the current
        one changes nothing and emits nothing; otherwise the text (cut to six
        characters) is replaced and, unless qra_sigid is blocked, "changed"
        runs qra_changed. */
    method SetQraText(text: string)
      requires Valid()
      modifies this
      decreases if blocked.qra > 0 then 0 else 2
      ensures Valid()
      ensures blocked == old(blocked)
      ensures name == old(name) && cursor == old(cursor) && alt == old(alt)
      ensures text == old(qra) || old(blocked.qra) > 0 ==>
                trace == old(trace)
                && lat == old(lat) && lon == old(lon) && ns == old(ns) && ew == old(ew)
      ensures text == old(qra) ==> qra == old(qra)
      ensures text != old(qra) && old(blocked.qra) > 0 ==> qra == Truncate(text, QRA_MAX_LENGTH)
      ensures text != old(qra) && old(blocked.qra) == 0 ==>
                trace == old(trace) + [QraHandler]
                && QraOutcome(Truncate(text, QRA_MAX_LENGTH), old(lat), old(lon), old(ns), old(ew))
    {
      if text != qra {
        qra := Truncate(text, QRA_MAX_LENGTH);
        if blocked.qra == 0 {
          QraChanged();
        }
      }
    }

    /** gtk_spin_button_set_value on the latitude spin: the value is clamped to [0, 90];
        only when that changes the value does "value-changed" fire, running
        latlon_changed unless lat_sigid is blocked. */
    method SetLatValue(v: real)
      requires Valid()
      modifies this
      decreases if blocked.lat > 0 then 0 else 2
      ensures Valid()
      ensures lat == Clamp(v, 0.0, LAT_MAX)
      ensures name == old(name) && cursor == old(cursor) && alt == old(alt)
      ensures lon == old(lon) && ns == old(ns) && ew == old(ew) && blocked == old(blocked)
      ensures old(blocked.lat) > 0 || lat == old(lat) ==> qra == old(qra) && trace == old(trace)
      ensures old(blocked.lat) == 0 && lat != old(lat) ==>
                qra == LocatorAfterEncode(old(qra)) && trace == old(trace) + [LatLonHandler]
    {
      var value := Clamp(v, 0.0, LAT_MAX);
      if value != lat {
        lat := value;
        if blocked.lat == 0 {
          LatLonChanged();
        }
      }
    }

    /** gtk_spin_button_set_value on the longitude spin: the value is clamped to [0, 180];
        only when that changes the value does "value-changed" fire, running
        latlon_changed unless lon_sigid is blocked. */
    method SetLonValue(v: real)
      requires Valid()
      modifies this
      decreases if blocked.lon > 0 then 0 else 2
      ensures Valid()
      ensures lon == Clamp(v, 0.0, LON_MAX)
      ensures name == old(name) && cursor == old(cursor) && alt == old(alt)
      ensures lat == old(lat) && ns == old(ns) && ew == old(ew) && blocked == old(blocked)
      ensures old(blocked.lon) > 0 || lon == old(lon) ==> qra == old(qra) && trace == old(trace)
      ensures old(blocked.lon) == 0 && lon != old(lon) ==>
                qra == LocatorAfterEncode(old(qra)) && trace == old(trace) + [LatLonHandler]
    {
      var value := Clamp(v, 0.0, LON_MAX);
      if value != lon {
        lon := value;
        if blocked.lon == 0 {
          LatLonChanged();
        }
      }
    }

    /** gtk_combo_box_set_active selecting North (0) or South (1): only when that
        changes the selection does "changed" fire, running latlon_changed
        unless ns_sigid is blocked. */
    method SetNsActive(index: int)
      requires Valid()
      requires index == NORTH_EAST || index == SOUTH_WEST
      modifies this
      decreases if blocked.ns > 0 then 0 else 2
      ensures Valid()
      ensures ns == index
      ensures name == old(name) && cursor == old(cursor) && alt == old(alt)
      ensures lat == old(lat) && lon == old(lon) && ew == old(ew) && blocked == old(blocked)
      ensures old(blocked.ns) > 0 || index == old(ns) ==> qra == old(qra) && trace == old(trace)
      ensures old(blocked.ns) == 0 && index != old(ns) ==>
                qra == LocatorAfterEncode(old(qra)) && trace == old(trace) + [LatLonHandler]
    {
      if index != ns {
        ns := index;
        if blocked.ns == 0 {
          LatLonChanged();
        }
      }
    }

    /** gtk_combo_box_set_active selecting East (0) or West (1): only when that
        changes the selection does "changed" fire, running latlon_changed
        unless ew_sigid is blocked. */
    method SetEwActive(index: int)
      requires Valid()
      requires index == NORTH_EAST || index == SOUTH_WEST
      modifies this
      decreases if blocked.ew > 0 then 0 else 2
      ensures Valid()
      ensures ew == index
      ensures name == old(name) && cursor == old(cursor) && alt == old(alt)
      ensures lat == old(lat) && lon == old(lon) && ns == old(ns) && blocked == old(blocked)
      ensures old(blocked.ew) > 0 || index == old(ew) ==> qra == old(qra) && trace == old(trace)
      ensures old(blocked.ew) == 0 && index != old(ew) ==>
                qra == LocatorAfterEncode(old(qra)) && trace == old(trace) + [LatLonHandler]
    {
      if index != ew {
        ew := index;
        if blocked.ew == 0 {
          LatLonChanged();
        }
      }
    }

    /** latlon_changed: encodes the signed coordinates as a 3-pair locator
        and, on success, writes it to the locator entry with qra_sigid
        blocked; on failure the locator is left as it was. Only the locator
        changes, the block counts end as they began, and no other handler
        is entered. */
    method LatLonChanged()
      requires Valid()
      modifies this
      decreases 1
      ensures Valid()
      ensures qra == LocatorAfterEncode(old(qra))
      ensures name == old(name) && cursor == old(cursor) && alt == old(alt)
      ensures lat == old(lat) && lon == old(lon) && ns == old(ns) && ew == old(ew)
      ensures blocked == old(blocked)
      ensures trace == old(trace) + [LatLonHandler]
    {
      trace := trace + [LatLonHandler];
      var lonf := lon;
      var latf := lat;
      if ns != 0 {
        latf := -latf;
      }
      if ew != 0 {
        lonf := -lonf;
      }
      var locator := encode(lonf, latf, LOCATOR_PAIRS);
      match locator
      case Some(loc) =>
        blocked := blocked.(qra := blocked.qra + 1);
        SetQraText(loc);
        blocked := blocked.(qra := blocked.qra - 1);
      case None =>
    }

    /** The state qra_changed leaves for a locator `text` typed over the
        coordinates (`lat0`, `lon0`, `ns0`, `ew0`): on a successful decode the
        selectors follow the signs (0 only for strictly positive values), the
        spins hold the clamped magnitudes and the text is upper-cased; on
        failure nothing changes. */
    ghost predicate QraOutcome(text: string, lat0: real, lon0: real, ns0: int, ew0: int)
      reads this
    {
      match decode(text)
      case Some(ll) =>
        ns == SelectorFor(ll.lat) && ew == SelectorFor(ll.lon)
        && lat == Clamp(Abs(ll.lat), 0.0, LAT_MAX) && lon == Clamp(Abs(ll.lon), 0.0, LON_MAX)
        && qra == AsciiUpper(text)
      case None =>
        qra == text && lat == lat0 && lon == lon0 && ns == ns0 && ew == ew0
    }

    /** qra_changed: decodes the locator text; on success blocks every
        coordinate and locator handler id, sets the selectors, the spins
        and the upper-cased locator, and releases the blocks again. On
        failure nothing changes. Either way the block counts end as they
        began and no other handler is entered. */
    method QraChanged()
      requires Valid()
      modifies this
      decreases 1
      ensures Valid()
      ensures QraOutcome(old(qra), old(lat), old(lon), old(ns), old(ew))
      ensures match decode(old(qra))
              case Some(ll) =>
                Abs(ll.lat) <= LAT_MAX && Abs(ll.lon) <= LON_MAX ==>
                  SignedLat() == ll.lat && SignedLon() == ll.lon
              case None => true
      ensures name == old(name) && cursor == old(cursor) && alt == old(alt)
      ensures blocked == old(blocked)
      ensures trace == old(trace) + [QraHandler]
    {
      trace := trace + [QraHandler];
      var text := qra;
      var decoded := decode(text);
      match decoded
      case Some(ll) =>
        var lonf, latf := ll.lon, ll.lat;
        var b := blocked;
        blocked := BlockCounts(b.qra + 1, b.lat + 1, b.lon + 1, b.ns + 1, b.ew + 1);
        SetNsActive(if latf > 0.0 then 0 else 1);
        SetEwActive(if lonf > 0.0 then 0 else 1);
        SetLatValue(Abs(latf));
        SetLonValue(Abs(lonf));
        AsciiUpperSpec(text);
        SetQraText(AsciiUpper(text));
        blocked := b;
        if Abs(latf) <= LAT_MAX && Abs(lonf) <= LON_MAX {
          SignedMagnitudeRoundTrip(latf, LAT_MAX);
          SignedMagnitudeRoundTrip(lonf, LON_MAX);
        }
      case None =>
    }
  }

  /** The user replaces the idle editor's locator with `text` (cut to six
      characters by the entry) and the location is read back: a locator that
      decodes to coordinates within the spin ranges is read back as exactly
      those coordinates, with the locator in upper case; one that does not
      decode leaves the coordinates as they were. Text equal to the current
      locator is no change, and runs no handler. */
  method EnterLocator(e: QthEditor, text: string) returns (q: Qth)
    requires e.Valid() && e.Idle()
    modifies e
    ensures e.Valid() && e.Idle()
    ensures text == old(e.qra) ==>
              e.trace == old(e.trace)
              && q.qra == text && q.lat == old(e.SignedLat()) && q.lon == old(e.SignedLon())
    ensures text != old(e.qra) ==> e.trace == old(e.trace) + [QraHandler]
    ensures var typed := Truncate(text, QRA_MAX_LENGTH);
            text != old(e.qra) ==>
            match e.decode(typed)
            case Some(ll) =>
              q.qra == AsciiUpper(typed)
              && (Abs(ll.lat) <= LAT_MAX && Abs(ll.lon) <= LON_MAX ==> q.lat == ll.lat && q.lon == ll.lon)
            case None =>
              q.qra == typed && q.lat == old(e.SignedLat()) && q.lon == old(e.SignedLon())
    ensures q.name == old(e.name) && q.alt == old(e.alt)
  {
    e.SetQraText(text);
    q := e.GetQth();
  }

  /** Upper-casing leaves no ASCII lower-case letter and changes nothing
      else: the same length, and each character is its own upper case. */
  lemma {:induction false} AsciiUpperSpec(s: string)
    ensures |AsciiUpper(s)| == |s|
    ensures forall i :: 0 <= i < |s| ==> AsciiUpper(s)[i] == AsciiUpperChar(s[i])
    ensures forall i :: 0 <= i < |s| ==> !('a' <= AsciiUpper(s)[i] <= 'z')
  {
    if s != [] {
      AsciiUpperSpec(s[1..]);
      var u := AsciiUpper(s);
      assert u == [AsciiUpperChar(s[0])] + AsciiUpper(s[1..]);
      forall i | 0 <= i < |s|
        ensures u[i] == AsciiUpperChar(s[i])
      {
        if i > 0 {
          assert u[i] == AsciiUpper(s[1..])[i - 1];
        }
      }
    }
  }

  /** Upper-casing the locator twice is the same as once, so the text
      qra_changed writes back is already in canonical form. */
  lemma {:induction false} AsciiUpperIdempotent(s: string)
    ensures AsciiUpper(AsciiUpper(s)) == AsciiUpper(s)
  {
    var u := AsciiUpper(s);
    AsciiUpperSpec(s);
    AsciiUpperSpec(u);
    assert forall i :: 0 <= i < |u| ==> AsciiUpper(u)[i] == u[i];
  }

  /** A signed value read back from its magnitude and its selector is the
      value itself, when the magnitude is within the spin's range: zero
      selects South / West and reads back as zero. */
  lemma SignedMagnitudeRoundTrip(v: real, max: real)
    requires 0.0 <= max && Abs(v) <= max
    ensures Signed(Clamp(Abs(v), 0.0, max), SelectorFor(v)) == v
  {
  }

  /** The name filter rejects nothing exactly when every character is in
      [0-9a-zA-Z ._-]. */
  lemma {:induction false} RejectedZeroIff(s: string)
    ensures Rejected(s) == 0 <==> forall i :: 0 <= i < |s| ==> IsNameChar(s[i])
  {
    if s != [] {
      RejectedZeroIff(s[1..]);
      assert forall i :: 1 <= i < |s| ==> s[i] == s[1..][i - 1];
    }
  }

  lemma {:induction false} NameHandlersAppend(m: nat, n: nat)
    ensures NameHandlers(m) + NameHandlers(n) == NameHandlers(m + n)
  {
    assert forall i :: 0 <= i < m + n ==> (NameHandlers(m) + NameHandlers(n))[i] == NameHandler;
  }

  /** A step adds the same runs and emissions whatever was counted before. */
  lemma ScanStepShift(c: char, acc: NameOutcome, pos: nat)
    ensures var d := ScanStep(c, NameOutcome(acc.text, 0, 0), pos);
            ScanStep(c, acc, pos) == NameOutcome(d.text, acc.runs + d.runs, acc.emits + d.emits)
  {
  }

  /** Accepted characters of the copy are passed over without effect. */
  lemma {:induction false} ScanSkipsAccepted(entry: string, j: nat, k: nat, acc: NameOutcome, pos: nat)
    requires j <= k <= |entry|
    requires forall i :: j <= i < k ==> IsNameChar(entry[i])
    ensures NameScan(entry, j, acc, pos) == NameScan(entry, k, acc, pos)
    decreases k - j
  {
    if j < k {
      assert ScanStep(entry[j], acc, pos) == acc;
      ScanSkipsAccepted(entry, j + 1, k, acc, pos);
    }
  }

  /** Removing a block after the cursor and then another one removes one
      block. */
  lemma DeletedAfterTrans(a: string, b: string, c: string, pos: nat)
    requires DeletedAfter(a, b, pos) && DeletedAfter(b, c, pos)
    ensures DeletedAfter(a, c, pos)
  {
    var n := |c| - pos;
    assert b[|b| - n..] == b[pos..][|b| - pos - n..];
    assert a[|a| - n..] == a[|a| - (|b| - pos)..][|b| - pos - n..];
  }

  /** A run of name_changed, nested runs included, only deletes characters
      right after the cursor. */
  lemma {:induction false} NameFilterDeletesAtCursor(s: string, pos: nat)
    requires pos <= |s|
    ensures DeletedAfter(s, NameRun(s, pos).text, pos)
    decreases |s|, 2, 0
  {
    ScanDeletesAtCursor(s, 0, NameOutcome(s, 1, 0), pos);
  }

  lemma {:induction false} ScanDeletesAtCursor(entry: string, j: nat, acc: NameOutcome, pos: nat)
    requires j <= |entry| && pos <= |acc.text|
    ensures DeletedAfter(acc.text, NameScan(entry, j, acc, pos).text, pos)
    decreases |acc.text|, 1, |entry| - j
  {
    if j == |entry| {
      assert acc.text[|acc.text| - (|acc.text| - pos)..] == acc.text[pos..];
    } else {
      var next := ScanStep(entry[j], acc, pos);
      StepDeletesAtCursor(entry[j], acc, pos);
      ScanDeletesAtCursor(entry, j + 1, next, pos);
      DeletedAfterTrans(acc.text, next.text, NameScan(entry, j + 1, next, pos).text, pos);
    }
  }

  lemma {:induction false} StepDeletesAtCursor(c: char, acc: NameOutcome, pos: nat)
    requires pos <= |acc.text|
    ensures DeletedAfter(acc.text, ScanStep(c, acc, pos).text, pos)
    decreases |acc.text|, 0, 0
  {
    var s := acc.text;
    if !IsNameChar(c) && pos < |s| {
      var d := DeleteAt(s, pos);
      assert DeletedAfter(s, d, pos) by {
        assert d[pos..] == s[pos + 1..];
      }
      NameFilterDeletesAtCursor(d, pos);
      DeletedAfterTrans(s, d, NameRun(d, pos).text, pos);
    } else {
      assert s[|s| - (|s| - pos)..] == s[pos..];
    }
  }

  /** Each rejected character of the copy deletes at least one character,
      unless the deletions reach the end of the text. */
  lemma {:induction false} ScanRemovesRejected(entry: string, j: nat, acc: NameOutcome, pos: nat)
    requires j <= |entry| && pos <= |acc.text|
    ensures var r := NameScan(entry, j, acc, pos).text;
            |r| + Rejected(entry[j..]) <= |acc.text| || |r| == pos
    decreases |entry| - j
  {
    if j == |entry| {
      assert entry[j..] == [];
    } else {
      assert entry[j..][1..] == entry[j + 1..];
      var next := ScanStep(entry[j], acc, pos);
      if !IsNameChar(entry[j]) && pos < |acc.text| {
        assert |next.text| < |acc.text|;
      }
      StepDeletesAtCursor(entry[j], acc, pos);
      ScanDeletesAtCursor(entry, j + 1, next, pos);
      ScanRemovesRejected(entry, j + 1, next, pos);
    }
  }

  /** name_changed deletes at least as many characters as the text rejects,
      or every character after the cursor. */
  lemma NameFilterRemovesRejected(s: string, pos: nat)
    requires pos <= |s|
    ensures var r := NameRun(s, pos).text;
            |r| + Rejected(s) <= |s| || |r| == pos
  {
    ScanRemovesRejected(s, 0, NameOutcome(s, 1, 0), pos);
    assert s[0..] == s;
  }

  /** Text of accepted characters only passes the filter unchanged, in one
      run, emitting "changed" when not empty. */
  lemma NameFilterKeepsValid(s: string, pos: nat)
    requires forall i :: 0 <= i < |s| ==> IsNameChar(s[i])
    ensures NameRun(s, pos) == NameOutcome(s, 1, if |s| > 0 then 1 else 0)
  {
    ScanSkipsAccepted(s, 0, |s|, NameOutcome(s, 1, 0), pos);
  }

  /** name_changed leaves the text as it is exactly when it rejects nothing
      or the cursor is at the end of the text. */
  lemma NameFilterUnchangedIff(s: string, pos: nat)
    requires pos <= |s|
    ensures NameRun(s, pos).text == s <==> Rejected(s) == 0 || pos == |s|
  {
    RejectedZeroIff(s);
    if Rejected(s) == 0 {
      NameFilterKeepsValid(s, pos);
    }
    NameFilterDeletesAtCursor(s, pos);
    NameFilterRemovesRejected(s, pos);
  }

  /** From `j` on, the copy holds accepted characters, one rejected
      character at `k`, and accepted ones again; when the deletion at the
      cursor leaves accepted text only, that text is the outcome, after one
      nested run. */
  lemma ScanOneReject(entry: string, j: nat, k: nat, acc: NameOutcome, pos: nat)
    requires j <= k < |entry|
    requires forall i :: j <= i < |entry| && i != k ==> IsNameChar(entry[i])
    requires !IsNameChar(entry[k]) && pos < |acc.text|
    requires var d := DeleteAt(acc.text, pos);
             forall i :: 0 <= i < |d| ==> IsNameChar(d[i])
    ensures var d := DeleteAt(acc.text, pos);
            NameScan(entry, j, acc, pos)
            == NameOutcome(d, acc.runs + 1, acc.emits + if |d| > 0 then 1 else 0)
  {
    var d := DeleteAt(acc.text, pos);
    var next := NameOutcome(d, acc.runs + 1, acc.emits + if |d| > 0 then 1 else 0);
    ScanSkipsAccepted(entry, j, k, acc, pos);
    NameFilterKeepsValid(d, pos);
    assert ScanStep(entry[k], acc, pos) == next;
    ScanSkipsAccepted(entry, k + 1, |entry|, next, pos);
  }

  /** One rejected character typed at the cursor, between accepted text
      before and after it, is removed and nothing else is; the deletion
      re-enters the handler once. */
  lemma TypedRejectRemoved(before: string, c: char, after: string)
    requires forall i :: 0 <= i < |before| ==> IsNameChar(before[i])
    requires !IsNameChar(c)
    requires forall i :: 0 <= i < |after| ==> IsNameChar(after[i])
    ensures NameRun(before + [c] + after, |before|)
            == NameOutcome(before + after, 2, if before + after == [] then 0 else 2)
  {
    var s := before + [c] + after;
    var pos := |before|;
    TypedText(before, c, after);
    ScanOneReject(s, 0, pos, NameOutcome(s, 1, 0), pos);
    assert NameScan(s, 0, NameOutcome(s, 1, 0), pos)
           == NameOutcome(before + after, 2, if before + after == [] then 0 else 1);
  }

  /** The text of a character typed between `before` and `after`: accepted
      everywhere except at the cursor, and `before + after` once the
      character is deleted. */
  lemma TypedText(before: string, c: char, after: string)
    requires forall i :: 0 <= i < |before| ==> IsNameChar(before[i])
    requires forall i :: 0 <= i < |after| ==> IsNameChar(after[i])
    ensures var s := before + [c] + after;
            (forall i :: 0 <= i < |s| && i != |before| ==> IsNameChar(s[i]))
            && s[|before|] == c
            && DeleteAt(s, |before|) == before + after
            && forall i :: 0 <= i < |before + after| ==> IsNameChar((before + after)[i])
  {
    var s := before + [c] + after;
    var pos := |before|;
    assert forall i :: 0 <= i < |s| && i != pos ==>
      s[i] == if i < pos then before[i] else after[i - pos - 1];
    assert DeleteAt(s, pos) == before + after;
  }

  /** Typing '#' at the end of "My-Home_1" (the cursor still before it)
      leaves "My-Home_1", after two runs of the handler. */
  lemma NameFilterExample()
    ensures NameRun("My-Home_1#", 9) == NameOutcome("My-Home_1", 2, 2)
  {
    TypedRejectRemoved("My-Home_1", '#', "");
    assert "My-Home_1" + ['#'] + "" == "My-Home_1#";
  }

  /** Pasting "##" into "abcd" at position 2 deletes three characters, not
      two: the first deletion's nested run removes the second '#', so the
      outer scan's second deletion takes the 'c'. Four runs of the handler
      emit "changed" four times. */
  lemma PastedRejectsOverDelete()
    ensures NameRun("ab##cd", 2) == NameOutcome("abd", 4, 4)
  {
    var s := "ab##cd";
    var acc := NameOutcome(s, 1, 0);
    ScanSkipsAccepted(s, 0, 2, acc, 2);
    PastedFirstReject();
    PastedSecondReject();
    calc {
      NameScan(s, 0, acc, 2);
      NameScan(s, 2, acc, 2);
      NameScan(s, 3, NameOutcome("abcd", 3, 2), 2);
      NameOutcome("abd", 4, 3);
    }
  }

  /** The first '#': its deletion leaves "ab#cd", on which the nested run
      removes the second '#'. */
  lemma PastedFirstReject()
    ensures ScanStep('#', NameOutcome("ab##cd", 1, 0), 2) == NameOutcome("abcd", 3, 2)
  {
    assert DeleteAt("ab##cd", 2) == "ab" + ['#'] + "cd";
    TypedRejectRemoved("ab", '#', "cd");
    assert "ab" + "cd" == "abcd";
  }

  /** The second '#' of the copy then deletes the 'c'. */
  lemma PastedSecondReject()
    ensures NameScan("ab##cd", 3, NameOutcome("abcd", 3, 2), 2) == NameOutcome("abd", 4, 3)
  {
    assert DeleteAt("abcd", 2) == "abd";
    ScanOneReject("ab##cd", 3, 3, NameOutcome("abcd", 3, 2), 2);
  }
}

/** The first-run completeness probe: seven checks over the user
    configuration tree, OR-ed into one status bit field. The filesystem
    is a point-in-time snapshot of the locations the checks look at. */
module FirstTime {
  import opened FirstTimeCheck

  /** What reading a directory yields: either it cannot be opened, or the
      names `g_dir_read_name` returns, in order. */
  datatype Listing = Unreadable | Entries(names: seq<string>)

  /** The parts of USER_CONF_DIR the probe inspects. */
  datatype Snapshot = Snapshot(
    hasCfg: bool,          // USER_CONF_DIR/gpredict.cfg exists
    confDir: Listing,      // USER_CONF_DIR
    modulesDir: Listing,   // USER_CONF_DIR/modules
    satdataDir: Listing,   // USER_CONF_DIR/satdata
    hasCache: bool,        // USER_CONF_DIR/satdata/cache is a directory
    hasHwconf: bool,       // USER_CONF_DIR/hwconf is a directory
    hasTrsp: bool)         // USER_CONF_DIR/trsp is a directory

  const QTH_SUFFIX := ".qth"
  const MOD_SUFFIX := ".mod"
  const SAT_SUFFIX := ".sat"
  const CAT_SUFFIX := ".cat"

  /** g_str_has_suffix */
  predicate HasSuffix(s: string, suffix: string) {
    |suffix| <= |s| && s[|s| - |suffix|..] == suffix
  }

  /** The directory can be opened and one of its entries ends in `suffix`. */
  predicate HasEntryWithSuffix(l: Listing, suffix: string) {
    l.Entries? && exists i :: 0 <= i < |l.names| && HasSuffix(l.names[i], suffix)
  }

  /** The status contribution of one check: 0 when found, its flag otherwise. */
  function Missing(found: bool, flag: Status): Status {
    if found then 0 else flag
  }

  /** Whether the artifact that `f` reports is absent from the snapshot. */
  predicate IsMissing(fs: Snapshot, f: Flag) {
    match f
    case NoCfg => !fs.hasCfg
    case NoQth => !HasEntryWithSuffix(fs.confDir, QTH_SUFFIX)
    case NoMod => !HasEntryWithSuffix(fs.modulesDir, MOD_SUFFIX)
    case NoSat => !HasEntryWithSuffix(fs.satdataDir, SAT_SUFFIX)
    case NoCat => !HasEntryWithSuffix(fs.satdataDir, CAT_SUFFIX)
    case NoCache => !fs.hasCache
    case NoHwconf => !fs.hasHwconf
    case NoTrsp => !fs.hasTrsp
  }

  /** The value of the whole probe for a snapshot: the union of the seven
      checks. No undefined bit is ever set. */
  function Probe(fs: Snapshot): (r: Status)
    ensures r & ALL_FLAGS == r
    ensures r & 1 == 0
  {
    var r :=
      Missing(fs.hasCfg, NO_CFG)
      | Missing(HasEntryWithSuffix(fs.confDir, QTH_SUFFIX), NO_QTH)
      | Missing(HasEntryWithSuffix(fs.modulesDir, MOD_SUFFIX), NO_MOD)
      | (Missing(HasEntryWithSuffix(fs.satdataDir, CAT_SUFFIX), NO_CAT)
         | Missing(HasEntryWithSuffix(fs.satdataDir, SAT_SUFFIX), NO_SAT))
      | Missing(fs.hasCache, NO_CACHE)
      | Missing(fs.hasHwconf, NO_HWCONF)
      | Missing(fs.hasTrsp, NO_TRSP);
    WithinFlags(r);
    r
  }

  /** Each flag of the probe is set exactly when its artifact is missing,
      so no check clears a bit another one set. */
  lemma ProbeFlags(fs: Snapshot, f: Flag)
    ensures Probe(fs) & Value(f) != 0 <==> IsMissing(fs, f)
  {
  }

  /** first_time_check_run: accumulates the seven checks with `|=`. */
  method Run(fs: Snapshot) returns (error: Status)
    ensures error == Probe(fs)
  {
    error := 0;
    var r := CheckCfg(fs);
    error := error | r;
    r := CheckQth(fs);
    error := error | r;
    r := CheckMod(fs);
    error := error | r;
    r := CheckSat(fs);
    error := error | r;
    r := CheckCache(fs);
    error := error | r;
    r := CheckHwconf(fs);
    error := error | r;
    r := CheckTrsp(fs);
    error := error | r;
  }

  /** first_time_check_cfg */
  method CheckCfg(fs: Snapshot) returns (r: Status)
    ensures r == 0 <==> fs.hasCfg
    ensures r == 0 || r == NO_CFG
  {
    var foundcfg := false;
    if fs.hasCfg {
      foundcfg := true;
    }
    r := if foundcfg then 0 else NO_CFG;
  }

  /** The directory scan of the .qth and .mod checks: reads entries until
      one ends in `suffix`, then stops. Stopping early gives the same answer
      as examining every entry. */
  method FindSuffix(l: Listing, suffix: string) returns (found: bool)
    ensures found == HasEntryWithSuffix(l, suffix)
  {
    found := false;
    if l.Entries? {
      var names := l.names;
      var i := 0;
      while i < |names|
        invariant 0 <= i <= |names|
        invariant !found
        invariant forall k :: 0 <= k < i ==> !HasSuffix(names[k], suffix)
      {
        if HasSuffix(names[i], suffix) {
          found := true;
          break;
        }
        i := i + 1;
      }
    }
  }

  /** first_time_check_qth */
  method CheckQth(fs: Snapshot) returns (r: Status)
    ensures r == 0 <==> HasEntryWithSuffix(fs.confDir, QTH_SUFFIX)
    ensures r == 0 || r == NO_QTH
  {
    var foundqth := FindSuffix(fs.confDir, QTH_SUFFIX);
    r := if foundqth then 0 else NO_QTH;
  }

  /** first_time_check_mod */
  method CheckMod(fs: Snapshot) returns (r: Status)
    ensures r == 0 <==> HasEntryWithSuffix(fs.modulesDir, MOD_SUFFIX)
    ensures r == 0 || r == NO_MOD
  {
    var foundmod := FindSuffix(fs.modulesDir, MOD_SUFFIX);
    r := if foundmod then 0 else NO_MOD;
  }

  /** A name cannot end in both ".sat" and ".cat", so the `else if` of the
      satellite-data scan never hides a .cat file. */
  lemma SatCatExclusive(s: string)
    ensures !(HasSuffix(s, SAT_SUFFIX) && HasSuffix(s, CAT_SUFFIX))
  {
  }

  /** first_time_check_sat: scans every entry, recording .sat and .cat
      files independently. */
  method CheckSat(fs: Snapshot) returns (r: Status)
    ensures r & NO_SAT != 0 <==> !HasEntryWithSuffix(fs.satdataDir, SAT_SUFFIX)
    ensures r & NO_CAT != 0 <==> !HasEntryWithSuffix(fs.satdataDir, CAT_SUFFIX)
    ensures r & (NO_SAT | NO_CAT) == r
  {
    var foundsat := false;
    var foundcat := false;
    if fs.satdataDir.Entries? {
      var names := fs.satdataDir.names;
      var i := 0;
      while i < |names|
        invariant 0 <= i <= |names|
        invariant foundsat <==> exists k :: 0 <= k < i && HasSuffix(names[k], SAT_SUFFIX)
        invariant foundcat <==> exists k :: 0 <= k < i && HasSuffix(names[k], CAT_SUFFIX)
      {
        SatCatExclusive(names[i]);
        if HasSuffix(names[i], SAT_SUFFIX) {
          foundsat := true;
        } else if HasSuffix(names[i], CAT_SUFFIX) {
          foundcat := true;
        }
        i := i + 1;
      }
    }
    r := (if foundcat then 0 else NO_CAT) | (if foundsat then 0 else NO_SAT);
  }

  /** first_time_check_cache */
  method CheckCache(fs: Snapshot) returns (r: Status)
    ensures r == 0 <==> fs.hasCache
    ensures r == 0 || r == NO_CACHE
  {
    var foundcache := false;
    if fs.hasCache {
      foundcache := true;
    }
    r := if foundcache then 0 else NO_CACHE;
  }

  /** first_time_check_hwconf */
  method CheckHwconf(fs: Snapshot) returns (r: Status)
    ensures r == 0 <==> fs.hasHwconf
    ensures r == 0 || r == NO_HWCONF
  {
    var foundconf := false;
    if fs.hasHwconf {
      foundconf := true;
    }
    r := if foundconf then 0 else NO_HWCONF;
  }

  /** first_time_check_trsp */
  method CheckTrsp(fs: Snapshot) returns (r: Status)
    ensures r == 0 <==> fs.hasTrsp
    ensures r == 0 || r == NO_TRSP
  {
    var foundconf := false;
    if fs.hasTrsp {
      foundconf := true;
    }
    r := if foundconf then 0 else NO_TRSP;
  }

  /** A configuration directory holding gpredict.cfg and one .qth file, with
      no modules, satdata, hwconf or trsp directories, reports everything
      except the configuration file and the location as missing. */
  lemma FreshInstallScenario(otherFiles: seq<string>)
    ensures
      var fs := Snapshot(true, Entries(otherFiles + ["home.qth"]), Unreadable, Unreadable,
                         false, false, false);
      Probe(fs) == NO_MOD | NO_SAT | NO_CAT | NO_CACHE | NO_HWCONF | NO_TRSP
  {
    var names := otherFiles + ["home.qth"];
    assert HasSuffix(names[|names| - 1], QTH_SUFFIX);
  }
}

/**
 * The error classifier of the production side: an ordered list of
 * conditions, each a list of case-insensitive substring keys and the
 * resolution (submitted, unavailable, or retry with back-off) a
 * processing log that contains one of them gets.
 */
module ErrorClassifier {
  import opened Wrappers
  import opened Text
  import Sensor

  datatype Status = Submitted | Unavailable | Retry

  /** The extras of a retry: retry_after on the integer clock and the configured retry limit. */
  datatype RetryExtra = RetryExtra(retryAfter: int, retryLimit: int)

  /** The ErrorResolution named tuple. */
  datatype Resolution = Resolution(status: Status, reason: string, extra: Option<RetryExtra>)

  /**
   * One condition method: the keys it searches for, the resolution it
   * gives, the retry.<key> settings it reads before searching (retry
   * conditions only), and whether it also parses the product name.
   */
  datatype Condition = Condition(name: string, keys: seq<string>, status: Status, reason: string,
                                 timeoutKey: Option<string>, checksProduct: bool)

  /** retry.<key>.timeout (seconds) and retry.<key>.retries. */
  datatype RetrySetting = RetrySetting(timeout: int, retries: int)

  type RetryConfig = map<string, RetrySetting>

  // errors.py:268
  const NarrDataBounds := Condition(
    "narr_data_bounds",
    keys := ["Scene partially or completely outside NARR data bounds"],
    status := Unavailable, reason := "Scene partially or completely outside NARR data bounds",
    timeoutKey := None, checksProduct := false)

  // errors.py:126
  const DbLockErrors := Condition(
    "db_lock_errors",
    keys := ["Lock wait timeout exceeded"],
    status := Retry, reason := "database lock timed out",
    timeoutKey := Some("db_lock_timeout"), checksProduct := false)

  // errors.py:232
  const DsweUnavailable := Condition(
    "dswe_unavailable",
    keys := ["include_dswe is an unavailable product option for OLITIRS"],
    status := Unavailable, reason := "DSWE is not available for OLI/TIRS products",
    timeoutKey := None, checksProduct := false)

  // errors.py:207
  const FtpErrors := Condition(
    "ftp_errors",
    keys := ["timed out|150 Opening BINARY mode data connection",
         "500 OOPS",
         "ftplib.error_reply"],
    status := Retry, reason := "FTP error",
    timeoutKey := Some("ftp_errors"), checksProduct := false)

  // errors.py:111
  const HttpErrors := Condition(
    "http_errors",
    keys := ["Read timed out.",
         "Connection aborted.",
         "Connection timed out",
         "Connection broken: IncompleteRead",
         "502 Server Error: Proxy Error",
         "404 Client Error: Not Found",
         "403 Client Error: Forbidden",
         "Transfer Failed - HTTP - exceeded retry limit"],
    status := Retry, reason := "HTTP connection error",
    timeoutKey := Some("http_errors"), checksProduct := false)

  // errors.py:134
  const GzipErrors := Condition(
    "gzip_errors",
    keys := ["not in gzip format",
         "gzip: stdin: unexpected end of file"],
    status := Retry, reason := "error unpacking gzip",
    timeoutKey := Some("gzip_errors"), checksProduct := false)

  // errors.py:144
  const GzipErrorsOnlineCache := Condition(
    "gzip_errors_online_cache",
    keys := ["gzip: stdin: invalid compressed data--format violated"],
    status := Retry, reason := "Input gzip corrupt",
    timeoutKey := Some("gzip_errors"), checksProduct := true)

  // errors.py:245
  const LtaSoapErrors := Condition(
    "lta_soap_errors",
    keys := ["Listener refused the connection with the following error"],
    status := Retry, reason := "Could not complete order at this time",
    timeoutKey := Some("lta_soap_errors"), checksProduct := false)

  // errors.py:196
  const MissingAuxData := Condition(
    "missing_aux_data",
    keys := ["Verify the missing auxillary data products",
         "Warning: main : Could not find auxnm data file",
         "Could not find TOMS aux"],
    status := Retry, reason := "Auxiliary data not yet available for this date",
    timeoutKey := Some("missing_aux_data"), checksProduct := false)

  // errors.py:216
  const NetworkErrors := Condition(
    "network_errors",
    keys := ["Network is unreachable",
         "Connection timed out",
         "socket.timeout",
         "error: [Errno 111] Connection refused"],
    status := Retry, reason := "Network error",
    timeoutKey := Some("network_errors"), checksProduct := false)

  // errors.py:177
  const NightScene := Condition(
    "night_scene",
    keys := ["solar zenith angle out of range",
         "Solar zenith angle is out of range"],
    status := Unavailable, reason := "Solar zenith angle out of range, cannot process night scene",
    timeoutKey := None, checksProduct := false)

  // errors.py:187
  const AlmostNightScene := Condition(
    "almost_night_scene",
    keys := ["solar zenith angle is too large"],
    status := Unavailable, reason := "Solar zenith angle is too large, cannot process scene to SR",
    timeoutKey := None, checksProduct := false)

  // errors.py:226
  const NoSuchFileOrDirectory := Condition(
    "no_such_file_or_directory",
    keys := ["BLOCK, COMING FROM LST AS WELL: No such file or directory"],
    status := Submitted, reason := "Reordered due to online cache purge",
    timeoutKey := None, checksProduct := false)

  // errors.py:168
  const OliNoSr := Condition(
    "oli_no_sr",
    keys := ["oli-only cannot be corrected to surface reflectance",
         "include_sr is an unavailable product option for OLI-Only dat"],
    status := Unavailable, reason := "OLI only scenes cannot be processed to surface reflectance",
    timeoutKey := None, checksProduct := false)

  // errors.py:238
  const OliOnlyNoThermal := Condition(
    "oli_only_no_thermal",
    keys := ["include_sr_thermal is an unavailable product option for OLI-Only data"],
    status := Unavailable, reason := "Brightness temperature is not available for OLI-only data",
    timeoutKey := None, checksProduct := false)

  // errors.py:261
  const SixsErrors := Condition(
    "sixs_errors",
    keys := ["cannot create temp file for here-document: Permission denied"],
    status := Retry, reason := "Error generating product, retrying",
    timeoutKey := Some("sixs_errors"), checksProduct := false)

  // errors.py:102
  const SshErrors := Condition(
    "ssh_errors",
    keys := ["Application failed to execute [ssh -q -o StrictHostKeyChe"],
    status := Retry, reason := "ssh operations interrupted",
    timeoutKey := Some("ssh_errors"), checksProduct := false)

  // errors.py:252
  const WarpErrors := Condition(
    "warp_errors",
    keys := ["GDAL Warp failed to transform",
         "projection_minbox     raise TransformPointError",
         "ERROR 1: Too many points",
         "unable to compute output bounds"],
    status := Unavailable, reason := "Error transforming product, check projection parameters",
    timeoutKey := None, checksProduct := false)

  // errors.py:274
  const NodeSpaceErrors := Condition(
    "node_space_errors",
    keys := ["Error: write_raw_binary",
         "Error writing the output",
         "Failed to unpack data",
         "No space left on device",
         "Error encountered tar'ing file"],
    status := Retry, reason := "Error writing to disk on processing node, retrying",
    timeoutKey := Some("node_space_errors"), checksProduct := false)

  // errors.py:282
  const LasrcMysterySegfaults := Condition(
    "lasrc_mystery_segfaults",
    keys := ["Segmentation fault lasrc",
         "Segmentation fault      lasrc"],
    status := Retry, reason := "Unexpected internal memory error",
    timeoutKey := Some("segfault_errors"), checksProduct := false)

  // errors.py:291
  const ReprojectErrors := Condition(
    "reproject_errors",
    keys := ["WarpVerificationError: Failed to compute statistics, no valid pixels found in sampling"],
    status := Unavailable, reason := "No valid pixels found for reprojection",
    timeoutKey := None, checksProduct := false)

  /** The conditions in the order Errors.__init__ registers them. */
  const Conditions: seq<Condition> :=
    [NarrDataBounds, DbLockErrors, DsweUnavailable, FtpErrors, HttpErrors, GzipErrors, GzipErrorsOnlineCache,
     LtaSoapErrors, MissingAuxData, NetworkErrors, NightScene, AlmostNightScene, NoSuchFileOrDirectory, OliNoSr,
     OliOnlyNoThermal, SixsErrors, SshErrors, WarpErrors, NodeSpaceErrors, LasrcMysterySegfaults, ReprojectErrors]

  /** Every retry setting some condition reads is configured. */
  predicate Configured(config: RetryConfig)
  {
    RetrySettingKeys <= config.Keys
  }

  /** The retry.<key> settings the conditions read. */
  const RetrySettingKeys: set<string> :=
    {"db_lock_timeout", "ftp_errors", "gzip_errors", "http_errors", "lta_soap_errors", "missing_aux_data", "network_errors", "node_space_errors", "segfault_errors", "sixs_errors", "ssh_errors"}

  lemma RetrySettingKeysComplete(i: nat)
    requires i < |Conditions| && Conditions[i].timeoutKey.Some?
    ensures Conditions[i].timeoutKey.value in RetrySettingKeys
  {
  }

  /**
   * What sensor.instance raises for the product name, if a name is given
   * and it does not parse. instance is pure, so its answer can be taken
   * before the conditions run; only gzip_errors_online_cache raises it.
   */
  function NameError(name: Option<string>): (r: Option<Raised>)
    ensures r.Some? <==> name.Some? && Sensor.Instance(name.value).Err?
  {
    if name.Some? && Sensor.Instance(name.value).Err? then Some(Sensor.Instance(name.value).error) else None
  }

  /** Some key, lower-cased, occurs in the lower-cased message. */
  predicate KeyMatches(message: string, keys: seq<string>)
  {
    keys != [] && (Contains(Lower(message), Lower(keys[0])) || KeyMatches(message, keys[1..]))
  }

  /** KeyMatches holds exactly when some key occurs. */
  lemma {:induction false} KeyMatchesSome(message: string, keys: seq<string>)
    ensures KeyMatches(message, keys) <==> exists k :: 0 <= k < |keys| && Contains(Lower(message), Lower(keys[k]))
  {
    if keys != [] {
      KeyMatchesSome(message, keys[1..]);
      assert forall k :: 1 <= k < |keys| ==> keys[k] == keys[1..][k - 1];
    }
  }

  /**
   * Errors.__find_error: the resolution if some key occurs in the message,
   * case-insensitively, else None; the search stops at the first key found.
   */
  method FindError(message: string, keys: seq<string>, status: Status, reason: string, extra: Option<RetryExtra>)
    returns (r: Option<Resolution>)
    ensures r.Some? <==> exists k :: 0 <= k < |keys| && Contains(Lower(message), Lower(keys[k]))
    ensures r.Some? <==> KeyMatches(message, keys)
    ensures r.Some? ==> r.value == Resolution(status, reason, extra)
  {
    KeyMatchesSome(message, keys);
    var lowered := Lower(message);
    var i := 0;
    while i < |keys|
      invariant 0 <= i <= |keys|
      invariant forall k :: 0 <= k < i ==> !Contains(lowered, Lower(keys[k]))
    {
      if IndexOf(lowered, Lower(keys[i])).Some? {
        return Some(Resolution(status, reason, extra));
      }
      i := i + 1;
    }
    return None;
  }

  /**
   * Errors.__add_retry: retry_after is the clock plus the configured
   * timeout, retry_limit the configured retries. A missing setting makes
   * int(None) raise TypeError.
   */
  function AddRetry(timeoutKey: string, config: RetryConfig, now: int): (r: Result<RetryExtra>)
    ensures r.Ok? <==> timeoutKey in config
    ensures r.Ok? ==> r.value.retryAfter - now == config[timeoutKey].timeout
    ensures r.Ok? ==> r.value.retryLimit == config[timeoutKey].retries
  {
    if timeoutKey in config then Ok(RetryExtra(now + config[timeoutKey].timeout, config[timeoutKey].retries))
    else Err(Raised(TypeError, "int() argument must be a string or a number, not 'NoneType'"))
  }

  /** The extras a condition passes on: None unless it is a retry condition. */
  function ExtraFor(c: Condition, config: RetryConfig, now: int): Result<Option<RetryExtra>>
  {
    match c.timeoutKey
    case None => Ok(None)
    case Some(k) =>
      match AddRetry(k, config, now)
      case Ok(x) => Ok(Some(x))
      case Err(e) => Err(e)
  }

  /**
   * What one condition method returns for the message, or what it raises.
   * gzip_errors_online_cache parses the product name whenever one is given,
   * so an unsupported name raises ProductNotImplemented there whether or
   * not the message matches.
   */
  function Outcome(c: Condition, message: string, nameError: Option<Raised>, config: RetryConfig, now: int)
    : Result<Option<Resolution>>
  {
    match ExtraFor(c, config, now)
    case Err(e) => Err(e)
    case Ok(extra) =>
      if c.checksProduct && nameError.Some? then Err(nameError.value)
      else if KeyMatches(message, c.keys) then Ok(Some(Resolution(c.status, c.reason, extra)))
      else Ok(None)
  }

  /** One condition method, searching with FindError. */
  method Evaluate(c: Condition, message: string, nameError: Option<Raised>, config: RetryConfig, now: int)
    returns (r: Result<Option<Resolution>>)
    ensures r == Outcome(c, message, nameError, config, now)
  {
    var extra := ExtraFor(c, config, now);
    if extra.Err? {
      return Err(extra.error);
    }
    var found := FindError(message, c.keys, c.status, c.reason, extra.value);
    if c.checksProduct && nameError.Some? {
      return Err(nameError.value);
    }
    return Ok(found);
  }

  /** No condition of cs before the i-th resolves or raises. */
  ghost predicate Undecided(cs: seq<Condition>, i: nat, message: string, nameError: Option<Raised>, config: RetryConfig, now: int)
    requires i <= |cs|
  {
    forall j :: 0 <= j < i ==> Outcome(cs[j], message, nameError, config, now) == Ok(None)
  }

  /** The first answer of the conditions cs from the i-th on: a resolution, an exception, or None. */
  function ResolveIn(cs: seq<Condition>, i: nat, message: string, nameError: Option<Raised>, config: RetryConfig, now: int)
    : Result<Option<Resolution>>
    requires i <= |cs|
    decreases |cs| - i
  {
    if i == |cs| then Ok(None)
    else
      var o := Outcome(cs[i], message, nameError, config, now);
      if o == Ok(None) then ResolveIn(cs, i + 1, message, nameError, config, now) else o
  }

  /** The first answer of the registered conditions from the i-th on. */
  function ResolveFrom(i: nat, message: string, nameError: Option<Raised>, config: RetryConfig, now: int)
    : Result<Option<Resolution>>
    requires i <= |Conditions|
  {
    ResolveIn(Conditions, i, message, nameError, config, now)
  }

  /** errors.resolve: the conditions in registration order, stopping at the first that answers. */
  method Resolve(message: string, name: Option<string>, config: RetryConfig, now: int)
    returns (r: Result<Option<Resolution>>)
    ensures r == ResolveFrom(0, message, NameError(name), config, now)
  {
    var nameError := NameError(name);
    var i := 0;
    while i < |Conditions|
      invariant 0 <= i <= |Conditions|
      invariant ResolveFrom(0, message, nameError, config, now) == ResolveFrom(i, message, nameError, config, now)
    {
      var o := Evaluate(Conditions[i], message, nameError, config, now);
      if o != Ok(None) {
        return o;
      }
      i := i + 1;
    }
    return Ok(None);
  }

  // ---------------------------------------------------------------- lemmas

  /** The first condition that answers decides. */
  lemma {:induction false} FirstDecides(cs: seq<Condition>, i: nat, message: string, nameError: Option<Raised>, config: RetryConfig, now: int)
    requires i < |cs| && Undecided(cs, i, message, nameError, config, now)
    requires Outcome(cs[i], message, nameError, config, now) != Ok(None)
    ensures ResolveIn(cs, 0, message, nameError, config, now) == Outcome(cs[i], message, nameError, config, now)
  {
    var k := i;
    while k > 0
      invariant 0 <= k <= i
      invariant ResolveIn(cs, k, message, nameError, config, now) == Outcome(cs[i], message, nameError, config, now)
    {
      k := k - 1;
      assert Outcome(cs[k], message, nameError, config, now) == Ok(None);
    }
  }

  /** None comes back exactly when no condition answers. */
  lemma {:induction false} NoneIffUndecided(cs: seq<Condition>, i: nat, message: string, nameError: Option<Raised>, config: RetryConfig, now: int)
    requires i <= |cs|
    ensures ResolveIn(cs, i, message, nameError, config, now) == Ok(None)
            <==> forall j :: i <= j < |cs| ==> Outcome(cs[j], message, nameError, config, now) == Ok(None)
    decreases |cs| - i
  {
    if i < |cs| {
      NoneIffUndecided(cs, i + 1, message, nameError, config, now);
    }
  }

  /**
   * Whatever resolve answers comes from a condition none before which
   * answered; a resolution is that condition's own, reached because one
   * of its keys occurs in the message.
   */
  lemma {:induction false} AnswerIsFirst(cs: seq<Condition>, i: nat, message: string, nameError: Option<Raised>, config: RetryConfig, now: int)
    requires i <= |cs|
    requires ResolveIn(cs, i, message, nameError, config, now) != Ok(None)
    ensures exists j :: i <= j < |cs| && ResolveIn(cs, i, message, nameError, config, now) == Outcome(cs[j], message, nameError, config, now)
    ensures ResolveIn(cs, i, message, nameError, config, now).Ok? ==>
      exists j :: i <= j < |cs| && KeyMatches(message, cs[j].keys)
        && ResolveIn(cs, i, message, nameError, config, now).value.value.status == cs[j].status
        && ResolveIn(cs, i, message, nameError, config, now).value.value.reason == cs[j].reason
    decreases |cs| - i
  {
    if Outcome(cs[i], message, nameError, config, now) == Ok(None) {
      AnswerIsFirst(cs, i + 1, message, nameError, config, now);
    }
  }

  /** Retry resolutions, and only they, carry extras, set from the condition's own settings. */
  lemma RetryExtras(c: Condition, message: string, nameError: Option<Raised>, config: RetryConfig, now: int)
    requires c in Conditions
    requires Outcome(c, message, nameError, config, now).Ok? && Outcome(c, message, nameError, config, now).value.Some?
    ensures var x := Outcome(c, message, nameError, config, now).value.value;
      (x.status == Retry <==> x.extra.Some?)
      && (x.extra.Some? ==> x.extra.value.retryAfter == now + config[c.timeoutKey.value].timeout
                            && x.extra.value.retryLimit == config[c.timeoutKey.value].retries)
  {
    var i :| 0 <= i < |Conditions| && Conditions[i] == c;
    RetryKeyed(i);
    ExtrasOf(c, message, nameError, config, now);
  }

  /** Exactly the retry conditions name a retry setting. */
  lemma RetryKeyed(i: nat)
    requires i < |Conditions|
    ensures Conditions[i].status == Retry <==> Conditions[i].timeoutKey.Some?
  {
  }

  /** A condition that names a setting exactly when it retries answers with extras exactly when it retries. */
  lemma ExtrasOf(c: Condition, message: string, nameError: Option<Raised>, config: RetryConfig, now: int)
    requires c.status == Retry <==> c.timeoutKey.Some?
    requires Outcome(c, message, nameError, config, now).Ok? && Outcome(c, message, nameError, config, now).value.Some?
    ensures var x := Outcome(c, message, nameError, config, now).value.value;
      (x.status == Retry <==> x.extra.Some?)
      && (x.extra.Some? ==> x.extra.value.retryAfter == now + config[c.timeoutKey.value].timeout
                            && x.extra.value.retryLimit == config[c.timeoutKey.value].retries)
  {
  }

  /** With every setting the conditions read configured and a parsable name nothing raises. */
  lemma {:induction false} NeverRaises(cs: seq<Condition>, i: nat, message: string, nameError: Option<Raised>, config: RetryConfig, now: int)
    requires i <= |cs| && nameError.None?
    requires forall j :: 0 <= j < |cs| && cs[j].timeoutKey.Some? ==> cs[j].timeoutKey.value in config
    ensures ResolveIn(cs, i, message, nameError, config, now).Ok?
    decreases |cs| - i
  {
    if i < |cs| {
      NeverRaises(cs, i + 1, message, nameError, config, now);
    }
  }

  /** Every registered condition's setting is configured in a Configured config. */
  lemma ConfiguredCovers(config: RetryConfig)
    requires Configured(config)
    ensures forall j :: 0 <= j < |Conditions| && Conditions[j].timeoutKey.Some? ==> Conditions[j].timeoutKey.value in config
  {
    forall j | 0 <= j < |Conditions| && Conditions[j].timeoutKey.Some?
      ensures Conditions[j].timeoutKey.value in config
    {
      RetrySettingKeysComplete(j);
    }
  }

  /** A condition none of whose keys occurs passes the message on. */
  lemma Skip(i: nat, message: string, nameError: Option<Raised>, config: RetryConfig, now: int)
    requires i < |Conditions| && Configured(config) && (nameError.None? || !Conditions[i].checksProduct)
    requires !KeyMatches(message, Conditions[i].keys)
    ensures ResolveFrom(i, message, nameError, config, now) == ResolveFrom(i + 1, message, nameError, config, now)
  {
    if Conditions[i].timeoutKey.Some? {
      RetrySettingKeysComplete(i);
    }
  }

  /** A condition one of whose keys occurs answers with its own resolution. */
  lemma Answer(i: nat, message: string, nameError: Option<Raised>, config: RetryConfig, now: int)
    requires i < |Conditions| && Configured(config) && (nameError.None? || !Conditions[i].checksProduct)
    requires KeyMatches(message, Conditions[i].keys)
    ensures Conditions[i].timeoutKey.Some? ==> Conditions[i].timeoutKey.value in config
    ensures ResolveFrom(i, message, nameError, config, now)
            == Ok(Some(Resolution(Conditions[i].status, Conditions[i].reason,
                                  if Conditions[i].timeoutKey.None? then None
                                  else Some(RetryExtra(now + config[Conditions[i].timeoutKey.value].timeout,
                                                       config[Conditions[i].timeoutKey.value].retries)))))
  {
    if Conditions[i].timeoutKey.Some? {
      RetrySettingKeysComplete(i);
    }
  }

  /**
   * A condition that parses the product name raises what parsing raised,
   * whatever the message says.
   */
  lemma Raise(i: nat, message: string, nameError: Option<Raised>, config: RetryConfig, now: int)
    requires i < |Conditions| && Configured(config) && nameError.Some? && Conditions[i].checksProduct
    ensures ResolveFrom(i, message, nameError, config, now) == Err(nameError.value)
  {
    if Conditions[i].timeoutKey.Some? {
      RetrySettingKeysComplete(i);
    }
  }
}

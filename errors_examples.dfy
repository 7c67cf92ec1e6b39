/**
 * Three processing logs from the error-classifier tests, resolved
 * through the whole condition list. Each log is written in short pieces
 * so that the verifier can take the literal apart; every key of every
 * condition registered before the one that answers is shown absent, by
 * length, by a character the log lacks in either case, or by the one
 * position where a character of the key could line up.
 */
module ErrorExamples {
  import opened Wrappers
  import opened Text
  import opened ErrorClassifier

  // ---------------------------------------------------------------- "Connection timed out"

  /** The log "Connection timed out", written in pieces. */
  const TimedOutLog: string := ("Connection timed" + " out")

  lemma TimedOutLogText()
    ensures TimedOutLog == "Connection timed out"
  {
  }

  /** 'Connection timed out' is an HTTP error: http_errors is registered before network_errors, which matches it too. */
  lemma ConnectionTimedOut(nameError: Option<Raised>, config: RetryConfig, now: int)
    requires Configured(config) && nameError.None?
    ensures KeyMatches(TimedOutLog, NetworkErrors.keys)
    ensures ResolveFrom(0, TimedOutLog, nameError, config, now)
            == Ok(Some(Resolution(Retry, "HTTP connection error", Some(RetryExtra(now + config["http_errors"].timeout, config["http_errors"].retries)))))
  {
    TimedOutSkipsNarrDataBounds(nameError, config, now);
    TimedOutSkipsDbLockErrors(nameError, config, now);
    TimedOutSkipsDsweUnavailable(nameError, config, now);
    TimedOutSkipsFtpErrors(nameError, config, now);
    TimedOutAnswers(nameError, config, now);
    TimedOutMatchesNetworkErrors();
  }

  lemma TimedOutSkipsNarrDataBounds(nameError: Option<Raised>, config: RetryConfig, now: int)
    requires Configured(config)
    ensures ResolveFrom(0, TimedOutLog, nameError, config, now) == ResolveFrom(1, TimedOutLog, nameError, config, now)
  {
    TimedOutMissesNarrDataBounds();
    Skip(0, TimedOutLog, nameError, config, now);
  }

  lemma TimedOutSkipsDbLockErrors(nameError: Option<Raised>, config: RetryConfig, now: int)
    requires Configured(config)
    ensures ResolveFrom(1, TimedOutLog, nameError, config, now) == ResolveFrom(2, TimedOutLog, nameError, config, now)
  {
    TimedOutMissesDbLockErrors();
    Skip(1, TimedOutLog, nameError, config, now);
  }

  lemma TimedOutSkipsDsweUnavailable(nameError: Option<Raised>, config: RetryConfig, now: int)
    requires Configured(config)
    ensures ResolveFrom(2, TimedOutLog, nameError, config, now) == ResolveFrom(3, TimedOutLog, nameError, config, now)
  {
    TimedOutMissesDsweUnavailable();
    Skip(2, TimedOutLog, nameError, config, now);
  }

  lemma TimedOutSkipsFtpErrors(nameError: Option<Raised>, config: RetryConfig, now: int)
    requires Configured(config)
    ensures ResolveFrom(3, TimedOutLog, nameError, config, now) == ResolveFrom(4, TimedOutLog, nameError, config, now)
  {
    TimedOutMissesFtpErrors();
    Skip(3, TimedOutLog, nameError, config, now);
  }

  lemma TimedOutAnswers(nameError: Option<Raised>, config: RetryConfig, now: int)
    requires Configured(config) && nameError.None?
    ensures ResolveFrom(4, TimedOutLog, nameError, config, now)
            == Ok(Some(Resolution(Retry, "HTTP connection error", Some(RetryExtra(now + config["http_errors"].timeout, config["http_errors"].retries)))))
  {
    TimedOutMatchesHttpErrors();
    Answer(4, TimedOutLog, nameError, config, now);
  }

  lemma TimedOutMatchesHttpErrors()
    ensures KeyMatches(TimedOutLog, HttpErrors.keys)
  {
    TimedOutLogText();
    ContainsAt(Lower(TimedOutLog), Lower(HttpErrors.keys[2]), 0);
    assert KeyMatches(TimedOutLog, HttpErrors.keys[2..]);
    assert KeyMatches(TimedOutLog, HttpErrors.keys[1..]);
    assert KeyMatches(TimedOutLog, HttpErrors.keys[0..]);
    assert HttpErrors.keys[0..] == HttpErrors.keys;
  }

  lemma TimedOutMatchesNetworkErrors()
    ensures KeyMatches(TimedOutLog, NetworkErrors.keys)
  {
    TimedOutLogText();
    ContainsAt(Lower(TimedOutLog), Lower(NetworkErrors.keys[1]), 0);
    assert KeyMatches(TimedOutLog, NetworkErrors.keys[1..]);
    assert KeyMatches(TimedOutLog, NetworkErrors.keys[0..]);
    assert NetworkErrors.keys[0..] == NetworkErrors.keys;
  }

  lemma TimedOutMissesNarrDataBounds()
    ensures !KeyMatches(TimedOutLog, NarrDataBounds.keys)
  {
    TimedOutAvoidsNarrDataBounds0();
    assert !KeyMatches(TimedOutLog, NarrDataBounds.keys[0..]);
    assert NarrDataBounds.keys[0..] == NarrDataBounds.keys;
  }

  lemma TimedOutMissesDbLockErrors()
    ensures !KeyMatches(TimedOutLog, DbLockErrors.keys)
  {
    TimedOutAvoidsDbLockErrors0();
    assert !KeyMatches(TimedOutLog, DbLockErrors.keys[0..]);
    assert DbLockErrors.keys[0..] == DbLockErrors.keys;
  }

  lemma TimedOutMissesDsweUnavailable()
    ensures !KeyMatches(TimedOutLog, DsweUnavailable.keys)
  {
    TimedOutAvoidsDsweUnavailable0();
    assert !KeyMatches(TimedOutLog, DsweUnavailable.keys[0..]);
    assert DsweUnavailable.keys[0..] == DsweUnavailable.keys;
  }

  lemma TimedOutMissesFtpErrors()
    ensures !KeyMatches(TimedOutLog, FtpErrors.keys)
  {
    TimedOutAvoidsFtpErrors2();
    assert !KeyMatches(TimedOutLog, FtpErrors.keys[2..]);
    TimedOutAvoidsFtpErrors1();
    assert !KeyMatches(TimedOutLog, FtpErrors.keys[1..]);
    TimedOutAvoidsFtpErrors0();
    assert !KeyMatches(TimedOutLog, FtpErrors.keys[0..]);
    assert FtpErrors.keys[0..] == FtpErrors.keys;
  }

  lemma TimedOutAvoidsNarrDataBounds0()
    ensures !Contains(Lower(TimedOutLog), Lower(NarrDataBounds.keys[0]))
  {
    NotContainsLonger(Lower(TimedOutLog), Lower(NarrDataBounds.keys[0]));
  }

  lemma TimedOutAvoidsDbLockErrors0()
    ensures !Contains(Lower(TimedOutLog), Lower(DbLockErrors.keys[0]))
  {
    NotContainsLonger(Lower(TimedOutLog), Lower(DbLockErrors.keys[0]));
  }

  lemma TimedOutAvoidsDsweUnavailable0()
    ensures !Contains(Lower(TimedOutLog), Lower(DsweUnavailable.keys[0]))
  {
    NotContainsLonger(Lower(TimedOutLog), Lower(DsweUnavailable.keys[0]));
  }

  lemma TimedOutAvoidsFtpErrors0()
    ensures !Contains(Lower(TimedOutLog), Lower(FtpErrors.keys[0]))
  {
    NotContainsLonger(Lower(TimedOutLog), Lower(FtpErrors.keys[0]));
  }

  lemma TimedOutAvoidsFtpErrors1()
    ensures !Contains(Lower(TimedOutLog), Lower(FtpErrors.keys[1]))
  {
    TimedOutLogLacksP();
    NotContainsLowerByChar(TimedOutLog, FtpErrors.keys[1], 6, 'p');
  }

  lemma TimedOutAvoidsFtpErrors2()
    ensures !Contains(Lower(TimedOutLog), Lower(FtpErrors.keys[2]))
  {
    TimedOutLogLacksP();
    NotContainsLowerByChar(TimedOutLog, FtpErrors.keys[2], 15, 'p');
  }

  lemma TimedOutLogLacksP()
    ensures 'p' !in TimedOutLog && 'P' !in TimedOutLog
  {
  }


  // ---------------------------------------------------------------- "BLOCK, COMING FROM LST AS WELL: No such file or directory"

  /** The log "BLOCK, COMING FROM LST AS WELL: No such file or directory", written in pieces. */
  const PurgeLog: string := ("BLOCK, COMING FR" + "OM LST AS WELL: " + "No such file or " + "directory")

  lemma PurgeLogText()
    ensures PurgeLog == "BLOCK, COMING FROM LST AS WELL: No such file or directory"
  {
    PurgeLogHalves();
    PurgeLogJoined();
  }

  lemma PurgeLogHalves()
    ensures PurgeLog == "BLOCK, COMING FROM LST AS WELL: " + "No such file or directory"
  {
    assert "BLOCK, COMING FR" + "OM LST AS WELL: " == "BLOCK, COMING FROM LST AS WELL: ";
    assert "No such file or " + "directory" == "No such file or directory";
  }

  lemma PurgeLogJoined()
    ensures "BLOCK, COMING FROM LST AS WELL: " + "No such file or directory" == "BLOCK, COMING FROM LST AS WELL: No such file or directory"
  {
  }

  /** The online-cache purge message sends the scene back to submitted. */
  lemma CachePurgeResubmits(nameError: Option<Raised>, config: RetryConfig, now: int)
    requires Configured(config) && nameError.None?
    ensures ResolveFrom(0, PurgeLog, nameError, config, now)
            == Ok(Some(Resolution(Submitted, "Reordered due to online cache purge", None)))
  {
    PurgeSkipsNarrDataBounds(nameError, config, now);
    PurgeSkipsDbLockErrors(nameError, config, now);
    PurgeSkipsDsweUnavailable(nameError, config, now);
    PurgeSkipsFtpErrors(nameError, config, now);
    PurgeSkipsHttpErrors(nameError, config, now);
    PurgeSkipsGzipErrors(nameError, config, now);
    PurgeSkipsGzipErrorsOnlineCache(nameError, config, now);
    PurgeSkipsLtaSoapErrors(nameError, config, now);
    PurgeSkipsMissingAuxData(nameError, config, now);
    PurgeSkipsNetworkErrors(nameError, config, now);
    PurgeSkipsNightScene(nameError, config, now);
    PurgeSkipsAlmostNightScene(nameError, config, now);
    PurgeAnswers(nameError, config, now);
  }

  lemma PurgeSkipsNarrDataBounds(nameError: Option<Raised>, config: RetryConfig, now: int)
    requires Configured(config)
    ensures ResolveFrom(0, PurgeLog, nameError, config, now) == ResolveFrom(1, PurgeLog, nameError, config, now)
  {
    PurgeMissesNarrDataBounds();
    Skip(0, PurgeLog, nameError, config, now);
  }

  lemma PurgeSkipsDbLockErrors(nameError: Option<Raised>, config: RetryConfig, now: int)
    requires Configured(config)
    ensures ResolveFrom(1, PurgeLog, nameError, config, now) == ResolveFrom(2, PurgeLog, nameError, config, now)
  {
    PurgeMissesDbLockErrors();
    Skip(1, PurgeLog, nameError, config, now);
  }

  lemma PurgeSkipsDsweUnavailable(nameError: Option<Raised>, config: RetryConfig, now: int)
    requires Configured(config)
    ensures ResolveFrom(2, PurgeLog, nameError, config, now) == ResolveFrom(3, PurgeLog, nameError, config, now)
  {
    PurgeMissesDsweUnavailable();
    Skip(2, PurgeLog, nameError, config, now);
  }

  lemma PurgeSkipsFtpErrors(nameError: Option<Raised>, config: RetryConfig, now: int)
    requires Configured(config)
    ensures ResolveFrom(3, PurgeLog, nameError, config, now) == ResolveFrom(4, PurgeLog, nameError, config, now)
  {
    PurgeMissesFtpErrors();
    Skip(3, PurgeLog, nameError, config, now);
  }

  lemma PurgeSkipsHttpErrors(nameError: Option<Raised>, config: RetryConfig, now: int)
    requires Configured(config)
    ensures ResolveFrom(4, PurgeLog, nameError, config, now) == ResolveFrom(5, PurgeLog, nameError, config, now)
  {
    PurgeMissesHttpErrors();
    Skip(4, PurgeLog, nameError, config, now);
  }

  lemma PurgeSkipsGzipErrors(nameError: Option<Raised>, config: RetryConfig, now: int)
    requires Configured(config)
    ensures ResolveFrom(5, PurgeLog, nameError, config, now) == ResolveFrom(6, PurgeLog, nameError, config, now)
  {
    PurgeMissesGzipErrors();
    Skip(5, PurgeLog, nameError, config, now);
  }

  lemma PurgeSkipsGzipErrorsOnlineCache(nameError: Option<Raised>, config: RetryConfig, now: int)
    requires Configured(config) && nameError.None?
    ensures ResolveFrom(6, PurgeLog, nameError, config, now) == ResolveFrom(7, PurgeLog, nameError, config, now)
  {
    PurgeMissesGzipErrorsOnlineCache();
    Skip(6, PurgeLog, nameError, config, now);
  }

  lemma PurgeSkipsLtaSoapErrors(nameError: Option<Raised>, config: RetryConfig, now: int)
    requires Configured(config) && nameError.None?
    ensures ResolveFrom(7, PurgeLog, nameError, config, now) == ResolveFrom(8, PurgeLog, nameError, config, now)
  {
    PurgeMissesLtaSoapErrors();
    Skip(7, PurgeLog, nameError, config, now);
  }

  lemma PurgeSkipsMissingAuxData(nameError: Option<Raised>, config: RetryConfig, now: int)
    requires Configured(config) && nameError.None?
    ensures ResolveFrom(8, PurgeLog, nameError, config, now) == ResolveFrom(9, PurgeLog, nameError, config, now)
  {
    PurgeMissesMissingAuxData();
    Skip(8, PurgeLog, nameError, config, now);
  }

  lemma PurgeSkipsNetworkErrors(nameError: Option<Raised>, config: RetryConfig, now: int)
    requires Configured(config) && nameError.None?
    ensures ResolveFrom(9, PurgeLog, nameError, config, now) == ResolveFrom(10, PurgeLog, nameError, config, now)
  {
    PurgeMissesNetworkErrors();
    Skip(9, PurgeLog, nameError, config, now);
  }

  lemma PurgeSkipsNightScene(nameError: Option<Raised>, config: RetryConfig, now: int)
    requires Configured(config) && nameError.None?
    ensures ResolveFrom(10, PurgeLog, nameError, config, now) == ResolveFrom(11, PurgeLog, nameError, config, now)
  {
    PurgeMissesNightScene();
    Skip(10, PurgeLog, nameError, config, now);
  }

  lemma PurgeSkipsAlmostNightScene(nameError: Option<Raised>, config: RetryConfig, now: int)
    requires Configured(config) && nameError.None?
    ensures ResolveFrom(11, PurgeLog, nameError, config, now) == ResolveFrom(12, PurgeLog, nameError, config, now)
  {
    PurgeMissesAlmostNightScene();
    Skip(11, PurgeLog, nameError, config, now);
  }

  lemma PurgeAnswers(nameError: Option<Raised>, config: RetryConfig, now: int)
    requires Configured(config) && nameError.None?
    ensures ResolveFrom(12, PurgeLog, nameError, config, now)
            == Ok(Some(Resolution(Submitted, "Reordered due to online cache purge", None)))
  {
    PurgeMatchesNoSuchFileOrDirectory();
    Answer(12, PurgeLog, nameError, config, now);
  }

  lemma PurgeMatchesNoSuchFileOrDirectory()
    ensures KeyMatches(PurgeLog, NoSuchFileOrDirectory.keys)
  {
    PurgeLogText();
    ContainsAt(Lower(PurgeLog), Lower(NoSuchFileOrDirectory.keys[0]), 0);
    assert KeyMatches(PurgeLog, NoSuchFileOrDirectory.keys[0..]);
    assert NoSuchFileOrDirectory.keys[0..] == NoSuchFileOrDirectory.keys;
  }

  lemma PurgeMissesNarrDataBounds()
    ensures !KeyMatches(PurgeLog, NarrDataBounds.keys)
  {
    PurgeAvoidsNarrDataBounds0();
    assert !KeyMatches(PurgeLog, NarrDataBounds.keys[0..]);
    assert NarrDataBounds.keys[0..] == NarrDataBounds.keys;
  }

  lemma PurgeMissesDbLockErrors()
    ensures !KeyMatches(PurgeLog, DbLockErrors.keys)
  {
    PurgeAvoidsDbLockErrors0();
    assert !KeyMatches(PurgeLog, DbLockErrors.keys[0..]);
    assert DbLockErrors.keys[0..] == DbLockErrors.keys;
  }

  lemma PurgeMissesDsweUnavailable()
    ensures !KeyMatches(PurgeLog, DsweUnavailable.keys)
  {
    PurgeAvoidsDsweUnavailable0();
    assert !KeyMatches(PurgeLog, DsweUnavailable.keys[0..]);
    assert DsweUnavailable.keys[0..] == DsweUnavailable.keys;
  }

  lemma PurgeMissesFtpErrors()
    ensures !KeyMatches(PurgeLog, FtpErrors.keys)
  {
    PurgeAvoidsFtpErrors2();
    assert !KeyMatches(PurgeLog, FtpErrors.keys[2..]);
    PurgeAvoidsFtpErrors1();
    assert !KeyMatches(PurgeLog, FtpErrors.keys[1..]);
    PurgeAvoidsFtpErrors0();
    assert !KeyMatches(PurgeLog, FtpErrors.keys[0..]);
    assert FtpErrors.keys[0..] == FtpErrors.keys;
  }

  lemma PurgeMissesHttpErrors()
    ensures !KeyMatches(PurgeLog, HttpErrors.keys)
  {
    PurgeAvoidsHttpErrors7();
    assert !KeyMatches(PurgeLog, HttpErrors.keys[7..]);
    PurgeAvoidsHttpErrors6();
    assert !KeyMatches(PurgeLog, HttpErrors.keys[6..]);
    PurgeAvoidsHttpErrors5();
    assert !KeyMatches(PurgeLog, HttpErrors.keys[5..]);
    PurgeAvoidsHttpErrors4();
    assert !KeyMatches(PurgeLog, HttpErrors.keys[4..]);
    PurgeAvoidsHttpErrors3();
    assert !KeyMatches(PurgeLog, HttpErrors.keys[3..]);
    PurgeAvoidsHttpErrors2();
    assert !KeyMatches(PurgeLog, HttpErrors.keys[2..]);
    PurgeAvoidsHttpErrors1();
    assert !KeyMatches(PurgeLog, HttpErrors.keys[1..]);
    PurgeAvoidsHttpErrors0();
    assert !KeyMatches(PurgeLog, HttpErrors.keys[0..]);
    assert HttpErrors.keys[0..] == HttpErrors.keys;
  }

  lemma PurgeMissesGzipErrors()
    ensures !KeyMatches(PurgeLog, GzipErrors.keys)
  {
    PurgeAvoidsGzipErrors1();
    assert !KeyMatches(PurgeLog, GzipErrors.keys[1..]);
    PurgeAvoidsGzipErrors0();
    assert !KeyMatches(PurgeLog, GzipErrors.keys[0..]);
    assert GzipErrors.keys[0..] == GzipErrors.keys;
  }

  lemma PurgeMissesGzipErrorsOnlineCache()
    ensures !KeyMatches(PurgeLog, GzipErrorsOnlineCache.keys)
  {
    PurgeAvoidsGzipErrorsOnlineCache0();
    assert !KeyMatches(PurgeLog, GzipErrorsOnlineCache.keys[0..]);
    assert GzipErrorsOnlineCache.keys[0..] == GzipErrorsOnlineCache.keys;
  }

  lemma PurgeMissesLtaSoapErrors()
    ensures !KeyMatches(PurgeLog, LtaSoapErrors.keys)
  {
    PurgeAvoidsLtaSoapErrors0();
    assert !KeyMatches(PurgeLog, LtaSoapErrors.keys[0..]);
    assert LtaSoapErrors.keys[0..] == LtaSoapErrors.keys;
  }

  lemma PurgeMissesMissingAuxData()
    ensures !KeyMatches(PurgeLog, MissingAuxData.keys)
  {
    PurgeAvoidsMissingAuxData2();
    assert !KeyMatches(PurgeLog, MissingAuxData.keys[2..]);
    PurgeAvoidsMissingAuxData1();
    assert !KeyMatches(PurgeLog, MissingAuxData.keys[1..]);
    PurgeAvoidsMissingAuxData0();
    assert !KeyMatches(PurgeLog, MissingAuxData.keys[0..]);
    assert MissingAuxData.keys[0..] == MissingAuxData.keys;
  }

  lemma PurgeMissesNetworkErrors()
    ensures !KeyMatches(PurgeLog, NetworkErrors.keys)
  {
    PurgeAvoidsNetworkErrors3();
    assert !KeyMatches(PurgeLog, NetworkErrors.keys[3..]);
    PurgeAvoidsNetworkErrors2();
    assert !KeyMatches(PurgeLog, NetworkErrors.keys[2..]);
    PurgeAvoidsNetworkErrors1();
    assert !KeyMatches(PurgeLog, NetworkErrors.keys[1..]);
    PurgeAvoidsNetworkErrors0();
    assert !KeyMatches(PurgeLog, NetworkErrors.keys[0..]);
    assert NetworkErrors.keys[0..] == NetworkErrors.keys;
  }

  lemma PurgeMissesNightScene()
    ensures !KeyMatches(PurgeLog, NightScene.keys)
  {
    PurgeAvoidsNightScene1();
    assert !KeyMatches(PurgeLog, NightScene.keys[1..]);
    PurgeAvoidsNightScene0();
    assert !KeyMatches(PurgeLog, NightScene.keys[0..]);
    assert NightScene.keys[0..] == NightScene.keys;
  }

  lemma PurgeMissesAlmostNightScene()
    ensures !KeyMatches(PurgeLog, AlmostNightScene.keys)
  {
    PurgeAvoidsAlmostNightScene0();
    assert !KeyMatches(PurgeLog, AlmostNightScene.keys[0..]);
    assert AlmostNightScene.keys[0..] == AlmostNightScene.keys;
  }

  lemma PurgeAvoidsNarrDataBounds0()
    ensures !Contains(Lower(PurgeLog), Lower(NarrDataBounds.keys[0]))
  {
    PurgeLogLacksP();
    NotContainsLowerByChar(PurgeLog, NarrDataBounds.keys[0], 22, 'p');
  }

  lemma PurgeAvoidsDbLockErrors0()
    ensures !Contains(Lower(PurgeLog), Lower(DbLockErrors.keys[0]))
  {
    PurgeLogLacksX();
    NotContainsLowerByChar(PurgeLog, DbLockErrors.keys[0], 19, 'x');
  }

  lemma PurgeAvoidsDsweUnavailable0()
    ensures !Contains(Lower(PurgeLog), Lower(DsweUnavailable.keys[0]))
  {
    PurgeLogLacksP();
    NotContainsLowerByChar(PurgeLog, DsweUnavailable.keys[0], 40, 'p');
  }

  lemma PurgeAvoidsFtpErrors0()
    ensures !Contains(Lower(PurgeLog), Lower(FtpErrors.keys[0]))
  {
    PurgeLogLacksP();
    NotContainsLowerByChar(PurgeLog, FtpErrors.keys[0], 15, 'p');
  }

  lemma PurgeAvoidsFtpErrors1()
    ensures !Contains(Lower(PurgeLog), Lower(FtpErrors.keys[1]))
  {
    PurgeLogLacksP();
    NotContainsLowerByChar(PurgeLog, FtpErrors.keys[1], 6, 'p');
  }

  lemma PurgeAvoidsFtpErrors2()
    ensures !Contains(Lower(PurgeLog), Lower(FtpErrors.keys[2]))
  {
    PurgeLogLacksP();
    NotContainsLowerByChar(PurgeLog, FtpErrors.keys[2], 15, 'p');
  }

  lemma PurgeAvoidsHttpErrors0()
    ensures !Contains(Lower(PurgeLog), Lower(HttpErrors.keys[0]))
  {
    PurgeLogLacksDot();
    NotContainsLowerByChar(PurgeLog, HttpErrors.keys[0], 14, '.');
  }

  lemma PurgeAvoidsHttpErrors1()
    ensures !Contains(Lower(PurgeLog), Lower(HttpErrors.keys[1]))
  {
    PurgeLogLacksDot();
    NotContainsLowerByChar(PurgeLog, HttpErrors.keys[1], 18, '.');
  }

  lemma PurgeAvoidsHttpErrors2()
    ensures !Contains(Lower(PurgeLog), Lower(HttpErrors.keys[2]))
  {
    PurgeLogAround36();
    PurgeLogAround36Lacks();
    assert PurgeLog[37] == 'c';
    NotContainsLowerByAnchor(PurgeLog, HttpErrors.keys[2], 18, ("BLOCK, COMING FR" + "OM LST AS WELL: " + "No s"), 'u', ("ch file or " + "directory"), 19);
  }

  lemma PurgeAvoidsHttpErrors3()
    ensures !Contains(Lower(PurgeLog), Lower(HttpErrors.keys[3]))
  {
    PurgeLogLacksP();
    NotContainsLowerByChar(PurgeLog, HttpErrors.keys[3], 24, 'p');
  }

  lemma PurgeAvoidsHttpErrors4()
    ensures !Contains(Lower(PurgeLog), Lower(HttpErrors.keys[4]))
  {
    PurgeLogLacksX();
    NotContainsLowerByChar(PurgeLog, HttpErrors.keys[4], 21, 'x');
  }

  lemma PurgeAvoidsHttpErrors5()
    ensures !Contains(Lower(PurgeLog), Lower(HttpErrors.keys[5]))
  {
    PurgeLogLacksDigit0();
    NotContainsLowerByChar(PurgeLog, HttpErrors.keys[5], 1, '0');
  }

  lemma PurgeAvoidsHttpErrors6()
    ensures !Contains(Lower(PurgeLog), Lower(HttpErrors.keys[6]))
  {
    PurgeLogLacksDigit0();
    NotContainsLowerByChar(PurgeLog, HttpErrors.keys[6], 1, '0');
  }

  lemma PurgeAvoidsHttpErrors7()
    ensures !Contains(Lower(PurgeLog), Lower(HttpErrors.keys[7]))
  {
    PurgeLogLacksP();
    NotContainsLowerByChar(PurgeLog, HttpErrors.keys[7], 21, 'p');
  }

  lemma PurgeAvoidsGzipErrors0()
    ensures !Contains(Lower(PurgeLog), Lower(GzipErrors.keys[0]))
  {
    PurgeLogLacksP();
    NotContainsLowerByChar(PurgeLog, GzipErrors.keys[0], 10, 'p');
  }

  lemma PurgeAvoidsGzipErrors1()
    ensures !Contains(Lower(PurgeLog), Lower(GzipErrors.keys[1]))
  {
    PurgeLogLacksX();
    NotContainsLowerByChar(PurgeLog, GzipErrors.keys[1], 16, 'x');
  }

  lemma PurgeAvoidsGzipErrorsOnlineCache0()
    ensures !Contains(Lower(PurgeLog), Lower(GzipErrorsOnlineCache.keys[0]))
  {
    PurgeLogLacksP();
    NotContainsLowerByChar(PurgeLog, GzipErrorsOnlineCache.keys[0], 24, 'p');
  }

  lemma PurgeAvoidsLtaSoapErrors0()
    ensures !Contains(Lower(PurgeLog), Lower(LtaSoapErrors.keys[0]))
  {
    PurgeLogAround12();
    PurgeLogAround12Lacks();
    NotContainsLowerByAnchor(PurgeLog, LtaSoapErrors.keys[0], 49, "BLOCK, COMIN", 'G', (" FR" + "OM LST AS WELL: " + "No such file or " + "directory"), 55);
  }

  lemma PurgeAvoidsMissingAuxData0()
    ensures !Contains(Lower(PurgeLog), Lower(MissingAuxData.keys[0]))
  {
    PurgeLogLacksX();
    NotContainsLowerByChar(PurgeLog, MissingAuxData.keys[0], 21, 'x');
  }

  lemma PurgeAvoidsMissingAuxData1()
    ensures !Contains(Lower(PurgeLog), Lower(MissingAuxData.keys[1]))
  {
    PurgeLogLacksX();
    NotContainsLowerByChar(PurgeLog, MissingAuxData.keys[1], 33, 'x');
  }

  lemma PurgeAvoidsMissingAuxData2()
    ensures !Contains(Lower(PurgeLog), Lower(MissingAuxData.keys[2]))
  {
    PurgeLogLacksX();
    NotContainsLowerByChar(PurgeLog, MissingAuxData.keys[2], 22, 'x');
  }

  lemma PurgeAvoidsNetworkErrors0()
    ensures !Contains(Lower(PurgeLog), Lower(NetworkErrors.keys[0]))
  {
    PurgeLogAround0();
    PurgeLogAround0Lacks();
    NotContainsLowerByAnchor(PurgeLog, NetworkErrors.keys[0], 19, "", 'B', ("LOCK, COMING FR" + "OM LST AS WELL: " + "No such file or " + "directory"), 21);
  }

  lemma PurgeAvoidsNetworkErrors1()
    ensures !Contains(Lower(PurgeLog), Lower(NetworkErrors.keys[1]))
  {
    PurgeLogAround36();
    PurgeLogAround36Lacks();
    assert PurgeLog[37] == 'c';
    NotContainsLowerByAnchor(PurgeLog, NetworkErrors.keys[1], 18, ("BLOCK, COMING FR" + "OM LST AS WELL: " + "No s"), 'u', ("ch file or " + "directory"), 19);
  }

  lemma PurgeAvoidsNetworkErrors2()
    ensures !Contains(Lower(PurgeLog), Lower(NetworkErrors.keys[2]))
  {
    PurgeLogLacksDot();
    NotContainsLowerByChar(PurgeLog, NetworkErrors.keys[2], 6, '.');
  }

  lemma PurgeAvoidsNetworkErrors3()
    ensures !Contains(Lower(PurgeLog), Lower(NetworkErrors.keys[3]))
  {
    PurgeLogLacksDigit1();
    NotContainsLowerByChar(PurgeLog, NetworkErrors.keys[3], 16, '1');
  }

  lemma PurgeAvoidsNightScene0()
    ensures !Contains(Lower(PurgeLog), Lower(NightScene.keys[0]))
  {
    PurgeLogLacksZ();
    NotContainsLowerByChar(PurgeLog, NightScene.keys[0], 6, 'z');
  }

  lemma PurgeAvoidsNightScene1()
    ensures !Contains(Lower(PurgeLog), Lower(NightScene.keys[1]))
  {
    PurgeLogLacksZ();
    NotContainsLowerByChar(PurgeLog, NightScene.keys[1], 6, 'z');
  }

  lemma PurgeAvoidsAlmostNightScene0()
    ensures !Contains(Lower(PurgeLog), Lower(AlmostNightScene.keys[0]))
  {
    PurgeLogLacksZ();
    NotContainsLowerByChar(PurgeLog, AlmostNightScene.keys[0], 6, 'z');
  }

  lemma PurgeLogLacksP()
    ensures 'p' !in PurgeLog && 'P' !in PurgeLog
  {
  }

  lemma PurgeLogLacksX()
    ensures 'x' !in PurgeLog && 'X' !in PurgeLog
  {
  }

  lemma PurgeLogLacksDot()
    ensures '.' !in PurgeLog
  {
  }

  lemma PurgeLogLacksDigit0()
    ensures '0' !in PurgeLog
  {
  }

  lemma PurgeLogLacksDigit1()
    ensures '1' !in PurgeLog
  {
  }

  lemma PurgeLogLacksZ()
    ensures 'z' !in PurgeLog && 'Z' !in PurgeLog
  {
  }

  lemma PurgeLogAround36()
    ensures PurgeLog == ("BLOCK, COMING FR" + "OM LST AS WELL: " + "No s") + ['u'] + ("ch file or " + "directory")
  {
    assert "No such file or " == "No s" + ['u'] + "ch file or ";
  }

  lemma PurgeLogAround36Lacks()
    ensures 'u' !in ("BLOCK, COMING FR" + "OM LST AS WELL: " + "No s") && 'u' !in ("ch file or " + "directory") && 'U' !in ("BLOCK, COMING FR" + "OM LST AS WELL: " + "No s") && 'U' !in ("ch file or " + "directory")
  {
  }

  lemma PurgeLogAround12()
    ensures PurgeLog == "BLOCK, COMIN" + ['G'] + (" FR" + "OM LST AS WELL: " + "No such file or " + "directory")
  {
    assert "BLOCK, COMING FR" == "BLOCK, COMIN" + ['G'] + " FR";
  }

  lemma PurgeLogAround12Lacks()
    ensures 'g' !in "BLOCK, COMIN" && 'g' !in (" FR" + "OM LST AS WELL: " + "No such file or " + "directory") && 'G' !in "BLOCK, COMIN" && 'G' !in (" FR" + "OM LST AS WELL: " + "No such file or " + "directory")
  {
  }

  lemma PurgeLogAround0()
    ensures PurgeLog == "" + ['B'] + ("LOCK, COMING FR" + "OM LST AS WELL: " + "No such file or " + "directory")
  {
    assert "BLOCK, COMING FR" == ['B'] + "LOCK, COMING FR";
  }

  lemma PurgeLogAround0Lacks()
    ensures 'b' !in "" && 'b' !in ("LOCK, COMING FR" + "OM LST AS WELL: " + "No such file or " + "directory") && 'B' !in "" && 'B' !in ("LOCK, COMING FR" + "OM LST AS WELL: " + "No such file or " + "directory")
  {
  }

  /**
   * With a product name that does not parse, the same log raises: the
   * online-cache condition, registered before the one that would answer,
   * parses the name.
   */
  lemma CachePurgeUnsupportedName(nameError: Option<Raised>, config: RetryConfig, now: int)
    requires Configured(config) && nameError.Some?
    ensures ResolveFrom(0, PurgeLog, nameError, config, now) == Err(nameError.value)
  {
    PurgeSkipsNarrDataBounds(nameError, config, now);
    PurgeSkipsDbLockErrors(nameError, config, now);
    PurgeSkipsDsweUnavailable(nameError, config, now);
    PurgeSkipsFtpErrors(nameError, config, now);
    PurgeSkipsHttpErrors(nameError, config, now);
    PurgeSkipsGzipErrors(nameError, config, now);
    Raise(6, PurgeLog, nameError, config, now);
  }

  // ---------------------------------------------------------------- "solar zenith angle out of range"

  /** The log "solar zenith angle out of range", written in pieces. */
  const NightLog: string := ("solar zenith ang" + "le out of range")

  lemma NightLogText()
    ensures NightLog == "solar zenith angle out of range"
  {
  }

  /** A solar zenith angle out of range makes a night scene unavailable. */
  lemma NightSceneUnavailable(nameError: Option<Raised>, config: RetryConfig, now: int)
    requires Configured(config) && nameError.None?
    ensures ResolveFrom(0, NightLog, nameError, config, now)
            == Ok(Some(Resolution(Unavailable, "Solar zenith angle out of range, cannot process night scene", None)))
  {
    NightSkipsNarrDataBounds(nameError, config, now);
    NightSkipsDbLockErrors(nameError, config, now);
    NightSkipsDsweUnavailable(nameError, config, now);
    NightSkipsFtpErrors(nameError, config, now);
    NightSkipsHttpErrors(nameError, config, now);
    NightSkipsGzipErrors(nameError, config, now);
    NightSkipsGzipErrorsOnlineCache(nameError, config, now);
    NightSkipsLtaSoapErrors(nameError, config, now);
    NightSkipsMissingAuxData(nameError, config, now);
    NightSkipsNetworkErrors(nameError, config, now);
    NightAnswers(nameError, config, now);
  }

  lemma NightSkipsNarrDataBounds(nameError: Option<Raised>, config: RetryConfig, now: int)
    requires Configured(config)
    ensures ResolveFrom(0, NightLog, nameError, config, now) == ResolveFrom(1, NightLog, nameError, config, now)
  {
    NightMissesNarrDataBounds();
    Skip(0, NightLog, nameError, config, now);
  }

  lemma NightSkipsDbLockErrors(nameError: Option<Raised>, config: RetryConfig, now: int)
    requires Configured(config)
    ensures ResolveFrom(1, NightLog, nameError, config, now) == ResolveFrom(2, NightLog, nameError, config, now)
  {
    NightMissesDbLockErrors();
    Skip(1, NightLog, nameError, config, now);
  }

  lemma NightSkipsDsweUnavailable(nameError: Option<Raised>, config: RetryConfig, now: int)
    requires Configured(config)
    ensures ResolveFrom(2, NightLog, nameError, config, now) == ResolveFrom(3, NightLog, nameError, config, now)
  {
    NightMissesDsweUnavailable();
    Skip(2, NightLog, nameError, config, now);
  }

  lemma NightSkipsFtpErrors(nameError: Option<Raised>, config: RetryConfig, now: int)
    requires Configured(config)
    ensures ResolveFrom(3, NightLog, nameError, config, now) == ResolveFrom(4, NightLog, nameError, config, now)
  {
    NightMissesFtpErrors();
    Skip(3, NightLog, nameError, config, now);
  }

  lemma NightSkipsHttpErrors(nameError: Option<Raised>, config: RetryConfig, now: int)
    requires Configured(config)
    ensures ResolveFrom(4, NightLog, nameError, config, now) == ResolveFrom(5, NightLog, nameError, config, now)
  {
    NightMissesHttpErrors();
    Skip(4, NightLog, nameError, config, now);
  }

  lemma NightSkipsGzipErrors(nameError: Option<Raised>, config: RetryConfig, now: int)
    requires Configured(config)
    ensures ResolveFrom(5, NightLog, nameError, config, now) == ResolveFrom(6, NightLog, nameError, config, now)
  {
    NightMissesGzipErrors();
    Skip(5, NightLog, nameError, config, now);
  }

  lemma NightSkipsGzipErrorsOnlineCache(nameError: Option<Raised>, config: RetryConfig, now: int)
    requires Configured(config) && nameError.None?
    ensures ResolveFrom(6, NightLog, nameError, config, now) == ResolveFrom(7, NightLog, nameError, config, now)
  {
    NightMissesGzipErrorsOnlineCache();
    Skip(6, NightLog, nameError, config, now);
  }

  lemma NightSkipsLtaSoapErrors(nameError: Option<Raised>, config: RetryConfig, now: int)
    requires Configured(config) && nameError.None?
    ensures ResolveFrom(7, NightLog, nameError, config, now) == ResolveFrom(8, NightLog, nameError, config, now)
  {
    NightMissesLtaSoapErrors();
    Skip(7, NightLog, nameError, config, now);
  }

  lemma NightSkipsMissingAuxData(nameError: Option<Raised>, config: RetryConfig, now: int)
    requires Configured(config) && nameError.None?
    ensures ResolveFrom(8, NightLog, nameError, config, now) == ResolveFrom(9, NightLog, nameError, config, now)
  {
    NightMissesMissingAuxData();
    Skip(8, NightLog, nameError, config, now);
  }

  lemma NightSkipsNetworkErrors(nameError: Option<Raised>, config: RetryConfig, now: int)
    requires Configured(config) && nameError.None?
    ensures ResolveFrom(9, NightLog, nameError, config, now) == ResolveFrom(10, NightLog, nameError, config, now)
  {
    NightMissesNetworkErrors();
    Skip(9, NightLog, nameError, config, now);
  }

  lemma NightAnswers(nameError: Option<Raised>, config: RetryConfig, now: int)
    requires Configured(config) && nameError.None?
    ensures ResolveFrom(10, NightLog, nameError, config, now)
            == Ok(Some(Resolution(Unavailable, "Solar zenith angle out of range, cannot process night scene", None)))
  {
    NightMatchesNightScene();
    Answer(10, NightLog, nameError, config, now);
  }

  lemma NightMatchesNightScene()
    ensures KeyMatches(NightLog, NightScene.keys)
  {
    NightLogText();
    ContainsAt(Lower(NightLog), Lower(NightScene.keys[0]), 0);
    assert KeyMatches(NightLog, NightScene.keys[0..]);
    assert NightScene.keys[0..] == NightScene.keys;
  }

  lemma NightMissesNarrDataBounds()
    ensures !KeyMatches(NightLog, NarrDataBounds.keys)
  {
    NightAvoidsNarrDataBounds0();
    assert !KeyMatches(NightLog, NarrDataBounds.keys[0..]);
    assert NarrDataBounds.keys[0..] == NarrDataBounds.keys;
  }

  lemma NightMissesDbLockErrors()
    ensures !KeyMatches(NightLog, DbLockErrors.keys)
  {
    NightAvoidsDbLockErrors0();
    assert !KeyMatches(NightLog, DbLockErrors.keys[0..]);
    assert DbLockErrors.keys[0..] == DbLockErrors.keys;
  }

  lemma NightMissesDsweUnavailable()
    ensures !KeyMatches(NightLog, DsweUnavailable.keys)
  {
    NightAvoidsDsweUnavailable0();
    assert !KeyMatches(NightLog, DsweUnavailable.keys[0..]);
    assert DsweUnavailable.keys[0..] == DsweUnavailable.keys;
  }

  lemma NightMissesFtpErrors()
    ensures !KeyMatches(NightLog, FtpErrors.keys)
  {
    NightAvoidsFtpErrors2();
    assert !KeyMatches(NightLog, FtpErrors.keys[2..]);
    NightAvoidsFtpErrors1();
    assert !KeyMatches(NightLog, FtpErrors.keys[1..]);
    NightAvoidsFtpErrors0();
    assert !KeyMatches(NightLog, FtpErrors.keys[0..]);
    assert FtpErrors.keys[0..] == FtpErrors.keys;
  }

  lemma NightMissesHttpErrors()
    ensures !KeyMatches(NightLog, HttpErrors.keys)
  {
    NightAvoidsHttpErrors7();
    assert !KeyMatches(NightLog, HttpErrors.keys[7..]);
    NightAvoidsHttpErrors6();
    assert !KeyMatches(NightLog, HttpErrors.keys[6..]);
    NightAvoidsHttpErrors5();
    assert !KeyMatches(NightLog, HttpErrors.keys[5..]);
    NightAvoidsHttpErrors4();
    assert !KeyMatches(NightLog, HttpErrors.keys[4..]);
    NightAvoidsHttpErrors3();
    assert !KeyMatches(NightLog, HttpErrors.keys[3..]);
    NightAvoidsHttpErrors2();
    assert !KeyMatches(NightLog, HttpErrors.keys[2..]);
    NightAvoidsHttpErrors1();
    assert !KeyMatches(NightLog, HttpErrors.keys[1..]);
    NightAvoidsHttpErrors0();
    assert !KeyMatches(NightLog, HttpErrors.keys[0..]);
    assert HttpErrors.keys[0..] == HttpErrors.keys;
  }

  lemma NightMissesGzipErrors()
    ensures !KeyMatches(NightLog, GzipErrors.keys)
  {
    NightAvoidsGzipErrors1();
    assert !KeyMatches(NightLog, GzipErrors.keys[1..]);
    NightAvoidsGzipErrors0();
    assert !KeyMatches(NightLog, GzipErrors.keys[0..]);
    assert GzipErrors.keys[0..] == GzipErrors.keys;
  }

  lemma NightMissesGzipErrorsOnlineCache()
    ensures !KeyMatches(NightLog, GzipErrorsOnlineCache.keys)
  {
    NightAvoidsGzipErrorsOnlineCache0();
    assert !KeyMatches(NightLog, GzipErrorsOnlineCache.keys[0..]);
    assert GzipErrorsOnlineCache.keys[0..] == GzipErrorsOnlineCache.keys;
  }

  lemma NightMissesLtaSoapErrors()
    ensures !KeyMatches(NightLog, LtaSoapErrors.keys)
  {
    NightAvoidsLtaSoapErrors0();
    assert !KeyMatches(NightLog, LtaSoapErrors.keys[0..]);
    assert LtaSoapErrors.keys[0..] == LtaSoapErrors.keys;
  }

  lemma NightMissesMissingAuxData()
    ensures !KeyMatches(NightLog, MissingAuxData.keys)
  {
    NightAvoidsMissingAuxData2();
    assert !KeyMatches(NightLog, MissingAuxData.keys[2..]);
    NightAvoidsMissingAuxData1();
    assert !KeyMatches(NightLog, MissingAuxData.keys[1..]);
    NightAvoidsMissingAuxData0();
    assert !KeyMatches(NightLog, MissingAuxData.keys[0..]);
    assert MissingAuxData.keys[0..] == MissingAuxData.keys;
  }

  lemma NightMissesNetworkErrors()
    ensures !KeyMatches(NightLog, NetworkErrors.keys)
  {
    NightAvoidsNetworkErrors3();
    assert !KeyMatches(NightLog, NetworkErrors.keys[3..]);
    NightAvoidsNetworkErrors2();
    assert !KeyMatches(NightLog, NetworkErrors.keys[2..]);
    NightAvoidsNetworkErrors1();
    assert !KeyMatches(NightLog, NetworkErrors.keys[1..]);
    NightAvoidsNetworkErrors0();
    assert !KeyMatches(NightLog, NetworkErrors.keys[0..]);
    assert NetworkErrors.keys[0..] == NetworkErrors.keys;
  }

  lemma NightAvoidsNarrDataBounds0()
    ensures !Contains(Lower(NightLog), Lower(NarrDataBounds.keys[0]))
  {
    NotContainsLonger(Lower(NightLog), Lower(NarrDataBounds.keys[0]));
  }

  lemma NightAvoidsDbLockErrors0()
    ensures !Contains(Lower(NightLog), Lower(DbLockErrors.keys[0]))
  {
    NightLogLacksC();
    NotContainsLowerByChar(NightLog, DbLockErrors.keys[0], 20, 'c');
  }

  lemma NightAvoidsDsweUnavailable0()
    ensures !Contains(Lower(NightLog), Lower(DsweUnavailable.keys[0]))
  {
    NotContainsLonger(Lower(NightLog), Lower(DsweUnavailable.keys[0]));
  }

  lemma NightAvoidsFtpErrors0()
    ensures !Contains(Lower(NightLog), Lower(FtpErrors.keys[0]))
  {
    NotContainsLonger(Lower(NightLog), Lower(FtpErrors.keys[0]));
  }

  lemma NightAvoidsFtpErrors1()
    ensures !Contains(Lower(NightLog), Lower(FtpErrors.keys[1]))
  {
    NightLogLacksP();
    NotContainsLowerByChar(NightLog, FtpErrors.keys[1], 6, 'p');
  }

  lemma NightAvoidsFtpErrors2()
    ensures !Contains(Lower(NightLog), Lower(FtpErrors.keys[2]))
  {
    NightLogLacksP();
    NotContainsLowerByChar(NightLog, FtpErrors.keys[2], 15, 'p');
  }

  lemma NightAvoidsHttpErrors0()
    ensures !Contains(Lower(NightLog), Lower(HttpErrors.keys[0]))
  {
    NightLogLacksD();
    NotContainsLowerByChar(NightLog, HttpErrors.keys[0], 9, 'd');
  }

  lemma NightAvoidsHttpErrors1()
    ensures !Contains(Lower(NightLog), Lower(HttpErrors.keys[1]))
  {
    NightLogLacksD();
    NotContainsLowerByChar(NightLog, HttpErrors.keys[1], 17, 'd');
  }

  lemma NightAvoidsHttpErrors2()
    ensures !Contains(Lower(NightLog), Lower(HttpErrors.keys[2]))
  {
    NightLogLacksD();
    NotContainsLowerByChar(NightLog, HttpErrors.keys[2], 15, 'd');
  }

  lemma NightAvoidsHttpErrors3()
    ensures !Contains(Lower(NightLog), Lower(HttpErrors.keys[3]))
  {
    NotContainsLonger(Lower(NightLog), Lower(HttpErrors.keys[3]));
  }

  lemma NightAvoidsHttpErrors4()
    ensures !Contains(Lower(NightLog), Lower(HttpErrors.keys[4]))
  {
    NightLogLacksP();
    NotContainsLowerByChar(NightLog, HttpErrors.keys[4], 18, 'p');
  }

  lemma NightAvoidsHttpErrors5()
    ensures !Contains(Lower(NightLog), Lower(HttpErrors.keys[5]))
  {
    NightLogLacksD();
    NotContainsLowerByChar(NightLog, HttpErrors.keys[5], 26, 'd');
  }

  lemma NightAvoidsHttpErrors6()
    ensures !Contains(Lower(NightLog), Lower(HttpErrors.keys[6]))
  {
    NightLogLacksD();
    NotContainsLowerByChar(NightLog, HttpErrors.keys[6], 24, 'd');
  }

  lemma NightAvoidsHttpErrors7()
    ensures !Contains(Lower(NightLog), Lower(HttpErrors.keys[7]))
  {
    NotContainsLonger(Lower(NightLog), Lower(HttpErrors.keys[7]));
  }

  lemma NightAvoidsGzipErrors0()
    ensures !Contains(Lower(NightLog), Lower(GzipErrors.keys[0]))
  {
    NightLogLacksP();
    NotContainsLowerByChar(NightLog, GzipErrors.keys[0], 10, 'p');
  }

  lemma NightAvoidsGzipErrors1()
    ensures !Contains(Lower(NightLog), Lower(GzipErrors.keys[1]))
  {
    NotContainsLonger(Lower(NightLog), Lower(GzipErrors.keys[1]));
  }

  lemma NightAvoidsGzipErrorsOnlineCache0()
    ensures !Contains(Lower(NightLog), Lower(GzipErrorsOnlineCache.keys[0]))
  {
    NotContainsLonger(Lower(NightLog), Lower(GzipErrorsOnlineCache.keys[0]));
  }

  lemma NightAvoidsLtaSoapErrors0()
    ensures !Contains(Lower(NightLog), Lower(LtaSoapErrors.keys[0]))
  {
    NotContainsLonger(Lower(NightLog), Lower(LtaSoapErrors.keys[0]));
  }

  lemma NightAvoidsMissingAuxData0()
    ensures !Contains(Lower(NightLog), Lower(MissingAuxData.keys[0]))
  {
    NotContainsLonger(Lower(NightLog), Lower(MissingAuxData.keys[0]));
  }

  lemma NightAvoidsMissingAuxData1()
    ensures !Contains(Lower(NightLog), Lower(MissingAuxData.keys[1]))
  {
    NotContainsLonger(Lower(NightLog), Lower(MissingAuxData.keys[1]));
  }

  lemma NightAvoidsMissingAuxData2()
    ensures !Contains(Lower(NightLog), Lower(MissingAuxData.keys[2]))
  {
    NightLogLacksD();
    NotContainsLowerByChar(NightLog, MissingAuxData.keys[2], 13, 'd');
  }

  lemma NightAvoidsNetworkErrors0()
    ensures !Contains(Lower(NightLog), Lower(NetworkErrors.keys[0]))
  {
    NightLogLacksC();
    NotContainsLowerByChar(NightLog, NetworkErrors.keys[0], 16, 'c');
  }

  lemma NightAvoidsNetworkErrors1()
    ensures !Contains(Lower(NightLog), Lower(NetworkErrors.keys[1]))
  {
    NightLogLacksD();
    NotContainsLowerByChar(NightLog, NetworkErrors.keys[1], 15, 'd');
  }

  lemma NightAvoidsNetworkErrors2()
    ensures !Contains(Lower(NightLog), Lower(NetworkErrors.keys[2]))
  {
    NightLogLacksC();
    NotContainsLowerByChar(NightLog, NetworkErrors.keys[2], 2, 'c');
  }

  lemma NightAvoidsNetworkErrors3()
    ensures !Contains(Lower(NightLog), Lower(NetworkErrors.keys[3]))
  {
    NotContainsLonger(Lower(NightLog), Lower(NetworkErrors.keys[3]));
  }

  lemma NightLogLacksC()
    ensures 'c' !in NightLog && 'C' !in NightLog
  {
  }

  lemma NightLogLacksP()
    ensures 'p' !in NightLog && 'P' !in NightLog
  {
  }

  lemma NightLogLacksD()
    ensures 'd' !in NightLog && 'D' !in NightLog
  {
  }
}

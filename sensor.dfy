/**
 * Product identifiers: recognising a Landsat collection scene id or a MODIS
 * tile name, stripping a known file extension, and extracting the fields
 * the rest of the system uses.
 */
module Sensor {
  import opened Wrappers
  import opened Text
  import opened Json

  datatype LandsatSensor = Tm4 | Tm5 | Etm7 | OliTirs8 | Oli8
  datatype Platform = Terra | Aqua

  /** One entry of the shortname -> pattern table. */
  datatype Pattern =
    | LandsatPattern(key: string, prefix: string, sensor: LandsatSensor)
    | ModisPattern(key: string, platform: Platform)

  /** The recognised product families, keyed by shortname. */
  const Patterns: seq<Pattern> := [
    LandsatPattern("tm4_collection", "lt04", Tm4),
    LandsatPattern("tm5_collection", "lt05", Tm5),
    LandsatPattern("etm7_collection", "le07", Etm7),
    LandsatPattern("olitirs8_collection", "lc08", OliTirs8),
    LandsatPattern("oli8_collection", "lo08", Oli8),
    ModisPattern("mod09a1", Terra), ModisPattern("mod09ga", Terra),
    ModisPattern("mod09gq", Terra), ModisPattern("mod09q1", Terra),
    ModisPattern("mod13a1", Terra), ModisPattern("mod13a2", Terra),
    ModisPattern("mod13a3", Terra), ModisPattern("mod13q1", Terra),
    ModisPattern("mod11a1", Terra),
    ModisPattern("myd09a1", Aqua), ModisPattern("myd09ga", Aqua),
    ModisPattern("myd09gq", Aqua), ModisPattern("myd09q1", Aqua),
    ModisPattern("myd13a1", Aqua), ModisPattern("myd13a2", Aqua),
    ModisPattern("myd13a3", Aqua), ModisPattern("myd13q1", Aqua),
    ModisPattern("myd11a1", Aqua)
  ]

  const ModisExtension := ".hdf"
  const LandsatExtension := ".tar.gz"

  /** The output products each sensor offers. */
  const LandsatProducts: seq<string> := [
    "source_metadata", "l1", "toa", "bt", "sr", "st", "swe", "sr_ndvi", "sr_evi",
    "sr_savi", "sr_msavi", "sr_ndmi", "sr_nbr", "sr_nbr2", "stats", "pixel_qa"]
  const OliProducts: seq<string> := ["source_metadata", "l1", "toa", "stats", "pixel_qa"]
  const ModisProducts: seq<string> := ["l1", "stats"]

  predicate DigitsIn(s: string, lo: nat, hi: nat)
    requires lo <= hi <= |s|
  {
    forall i :: lo <= i < hi ==> IsDigit(s[i])
  }

  predicate WordCharsIn(s: string, lo: nat, hi: nat)
    requires lo <= hi <= |s|
  {
    forall i :: lo <= i < hi ==> IsWordChar(s[i])
  }

  /**
   * ^<prefix>_\w{4}_[0-9]{6}_[0-9]{8}_[0-9]{8}_[0-9]{2}_\w{2}$ on a
   * lower-cased id.
   */
  predicate LandsatShape(id: string, prefix: string)
  {
    |id| == 40 && |prefix| == 4 && id[..4] == prefix
    && id[4] == '_' && WordCharsIn(id, 5, 9)
    && id[9] == '_' && DigitsIn(id, 10, 16)
    && id[16] == '_' && DigitsIn(id, 17, 25)
    && id[25] == '_' && DigitsIn(id, 26, 34)
    && id[34] == '_' && DigitsIn(id, 35, 37)
    && id[37] == '_' && WordCharsIn(id, 38, 40)
  }

  /** ^<key>\.a\d{7}\.h\d{2}v\d{2}\.00[5-6]\.\d{13}$ on a lower-cased id. */
  predicate ModisShape(id: string, key: string)
  {
    |id| == 41 && |key| == 7 && id[..7] == key
    && id[7] == '.' && id[8] == 'a' && DigitsIn(id, 9, 16)
    && id[16] == '.' && id[17] == 'h' && DigitsIn(id, 18, 20)
    && id[20] == 'v' && DigitsIn(id, 21, 23)
    && id[23] == '.' && id[24] == '0' && id[25] == '0' && '5' <= id[26] <= '6'
    && id[27] == '.' && DigitsIn(id, 28, 41)
  }

  predicate Matches(p: Pattern, id: string)
  {
    match p
    case LandsatPattern(_, prefix, _) => LandsatShape(id, prefix)
    case ModisPattern(key, _) => ModisShape(id, key)
  }

  /** A parsed product identifier. */
  datatype Product =
    | Landsat(productId: string, shortname: string, sensor: LandsatSensor,
              year: string, acquired: string, path: string, row: string,
              correctionLevel: string, collectionNumber: string,
              collectionCategory: string, ltaJsonName: string)
    | Modis(productId: string, shortname: string, platform: Platform,
            shortName: string, dateAcquired: string, year: string, doy: string,
            horizontal: string, vertical: string, version: string,
            dateProduced: string, ltaJsonName: string)
  {
    /** The first three characters of the id (lt0, le0, mod, ...), or the whole of a shorter id. */
    function SensorCode(): (r: string)
      ensures |productId| >= 3 ==> |r| == 3 && productId == r + productId[3..]
      ensures |productId| < 3 ==> r == productId
    {
      Slice(productId, 0, 3)
    }

    function SensorName(): string
    {
      match this
      case Landsat(_, _, s, _, _, _, _, _, _, _, _) =>
        (match s
         case Tm4 => "tm4" case Tm5 => "tm5" case Etm7 => "etm7"
         case OliTirs8 => "olitirs8" case Oli8 => "oli8")
      case Modis(_, _, p, _, _, _, _, _, _, _, _, _) =>
        if p == Terra then "terra" else "aqua"
    }

    function Products(): seq<string>
    {
      if Landsat? then (if sensor == Oli8 then OliProducts else LandsatProducts)
      else ModisProducts
    }
  }

  /** Python's s[i:j] on strings, with its clamping of out-of-range bounds. */
  function Slice(s: string, i: nat, j: nat): (r: string)
    ensures |r| <= |s|
  {
    var b := if i <= |s| then i else |s|;
    var e := if j <= |s| then (if b <= j then j else b) else |s|;
    s[b..e]
  }

  /** s[i:] */
  function Drop(s: string, i: nat): string
  {
    Slice(s, i, |s|)
  }

  /** int(s) on a field made of \w characters: it succeeds only on decimal digits. */
  function IntOf(s: string): Result<nat>
  {
    if s != [] && AllDigits(s) then Ok(DigitsValue(s))
    else Err(Raised(ValueError, "invalid literal for int() with base 10: '" + s + "'"))
  }

  function LandsatJsonBase(s: LandsatSensor): string
  {
    match s
    case Tm4 => "LANDSAT_TM_C" case Tm5 => "LANDSAT_TM_C"
    case Etm7 => "LANDSAT_ETM_C"
    case OliTirs8 => "LANDSAT_8_C" case Oli8 => "LANDSAT_8_C"
  }

  /** Landsat.__init__ on an id the pattern accepted. */
  function NewLandsat(productId: string, key: string, s: LandsatSensor): (r: Result<Product>)
    ensures r.Ok? ==> r.value.Landsat? && r.value.productId == Strip(productId) && r.value.shortname == key
    ensures r.Err? ==> r.error.kind in {IndexError, ValueError}
  {
    var pid := Strip(productId);
    var f := Split(pid, '_');
    if |f| < 4 then Err(Raised(IndexError, "list index out of range"))
    else
      match IntOf(f[|f| - 2])
      case Err(e) => Err(e)
      case Ok(n) =>
        Ok(Landsat(pid, key, s,
                   Slice(f[3], 0, 4), f[3],
                   LStripZeros(Slice(f[2], 0, 3)), LStripZeros(Drop(f[2], 3)),
                   f[1], f[|f| - 2], f[|f| - 1],
                   LandsatJsonBase(s) + NatToString(n)))
  }

  /** Modis.__init__ on an id the pattern accepted. */
  function NewModis(productId: string, key: string, p: Platform): (r: Result<Product>)
    ensures r.Ok? ==> r.value.Modis? && r.value.productId == productId && r.value.shortname == key
    ensures r.Err? ==> r.error.kind in {IndexError, ValueError}
  {
    var parts := Split(Strip(productId), '.');
    if |parts| < 5 then Err(Raised(IndexError, "list index out of range"))
    else
      var acquired := Drop(parts[1], 1);
      match IntOf(parts[3])
      case Err(e) => Err(e)
      case Ok(v) =>
        var json := "MODIS_" + Upper(key);
        Ok(Modis(productId, key, p, parts[0], acquired,
                 Slice(acquired, 0, 4), Slice(acquired, 4, 8),
                 Slice(parts[2], 1, 3), Slice(parts[2], 4, 6),
                 parts[3], parts[4],
                 if v == 5 then json else json + "_V" + NatToString(v)))
  }

  /** The index of the pattern that accepts id, trying the table in order. */
  function FindPattern(id: string, from: nat): (r: Option<nat>)
    requires from <= |Patterns|
    ensures r.Some? ==> from <= r.value < |Patterns| && Matches(Patterns[r.value], id)
    ensures r.None? ==> forall i :: from <= i < |Patterns| ==> !Matches(Patterns[i], id)
    decreases |Patterns| - from
  {
    if from == |Patterns| then None
    else if Matches(Patterns[from], id) then Some(from)
    else FindPattern(id, from + 1)
  }

  /** Builds the product of the pattern at index i. */
  function Build(i: nat, productId: string): (r: Result<Product>)
    requires i < |Patterns|
    ensures r.Ok? ==> r.value.shortname == Patterns[i].key && (r.value.Landsat? <==> Patterns[i].LandsatPattern?)
    ensures r.Err? ==> r.error.kind in {IndexError, ValueError}
  {
    match Patterns[i]
    case LandsatPattern(key, _, s) => NewLandsat(productId, key, s)
    case ModisPattern(key, p) => NewModis(Strip(productId), key, p)
  }

  /** The position of the first occurrence of ext in id, when id ends with ext. */
  function ExtensionIndex(id: string, ext: string): (k: nat)
    requires EndsWith(id, ext)
    ensures OccursAt(id, ext, k) && forall i :: 0 <= i < k ==> !OccursAt(id, ext, i)
  {
    assert OccursAt(id, ext, |id| - |ext|);
    IndexOf(id, ext).value
  }

  /** The extension that instance removes from a lower-cased stripped id, if any. */
  function ExtensionOf(id: string): Option<string>
  {
    if EndsWith(id, ModisExtension) then Some(ModisExtension)
    else if EndsWith(id, LandsatExtension) then Some(LandsatExtension)
    else None
  }

  /**
   * The extension removal step: the lower-cased stripped id and the
   * original-case id, both cut before the first occurrence of a trailing
   * '.hdf' or '.tar.gz'. The cut position is found in the stripped id and
   * applied to the stripped original, so the kept part keeps its case.
   */
  function CutExtension(productId: string): (r: (string, string))
    ensures var id := Strip(Lower(productId));
      match ExtensionOf(id)
      case None => r == (productId, id)
      case Some(ext) =>
        Lower(r.0) == r.1 && |r.0| <= |Strip(productId)| && r.0 == Strip(productId)[..|r.0|]
        && OccursAt(id, ext, |r.1|) && r.1 == id[..|r.1|]
        && forall i :: 0 <= i < |r.1| ==> !OccursAt(id, ext, i)
  {
    var original := Strip(productId);
    var id := Strip(Lower(productId));
    StripLowerCommute(productId);
    match ExtensionOf(id)
    case Some(ext) =>
      var k := ExtensionIndex(id, ext);
      LowerPrefix(original, k);
      (original[..k], id[..k])
    case None => (productId, id)
  }

  /**
   * The same step as the code writes it: the cut position comes from the
   * stripped id but is applied to the unstripped original.
   */
  function CutExtensionAsWritten(productId: string): (r: (string, string))
  {
    var id := Strip(Lower(productId));
    match ExtensionOf(id)
    case Some(ext) =>
      var k := ExtensionIndex(id, ext);
      (Slice(productId, 0, k), id[..k])
    case None => (productId, id)
  }

  function InstanceOf(cut: (string, string)): Result<Product>
  {
    match FindPattern(cut.1, 0)
    case Some(i) => Build(i, cut.0)
    case None => Err(Raised(ProductNotImplemented, "[" + cut.0 + "] is not a supported sensor product"))
  }

  /** sensor.instance with the extension cut applied to the stripped original. */
  function Instance(productId: string): (r: Result<Product>)
  {
    InstanceOf(CutExtension(productId))
  }

  /** sensor.instance as written. */
  function InstanceAsWritten(productId: string): Result<Product>
  {
    InstanceOf(CutExtensionAsWritten(productId))
  }

  function PatternKeys(): set<string>
  {
    set i | 0 <= i < |Patterns| :: Patterns[i].key
  }

  /** The shortname instance records is the key of one entry of the table. */
  lemma InstanceShortname(productId: string)
    requires Instance(productId).Ok?
    ensures Instance(productId).value.shortname in PatternKeys()
  {
    var i := FindPattern(CutExtension(productId).1, 0).value;
    assert Instance(productId).value.shortname == Patterns[i].key;
  }

  /** No shortname collides with the names order conversion gives a meaning of its own. */
  lemma ReservedNames()
    ensures "plot_statistics" !in PatternKeys() && "resampling_method" !in PatternKeys()
    ensures "format" !in PatternKeys()
  {
  }

  /** 'products' is no shortname either. */
  lemma ProductsNotASensor()
    ensures "products" !in PatternKeys()
  {
  }

  predicate IsLandsat(r: Result<Product>)
  {
    r.Ok? && r.value.Landsat?
  }

  predicate IsModis(r: Result<Product>)
  {
    r.Ok? && r.value.Modis?
  }

  // ---------------------------------------------------------------- lemmas

  lemma LowerPrefix(s: string, k: nat)
    requires k <= |s|
    ensures Lower(s[..k]) == Lower(s)[..k]
  {
  }

  lemma LStripLowerCommute(s: string)
    ensures LStrip(Lower(s)) == Lower(LStrip(s))
  {
    if s != [] && IsSpace(s[0]) {
      assert Lower(s)[1..] == Lower(s[1..]);
      LStripLowerCommute(s[1..]);
    } else if s != [] {
      assert !IsSpace(Lower(s)[0]);
    }
  }

  lemma RStripLowerCommute(s: string)
    ensures RStrip(Lower(s)) == Lower(RStrip(s))
  {
    if s != [] && IsSpace(s[|s| - 1]) {
      assert Lower(s)[..|s| - 1] == Lower(s[..|s| - 1]);
      RStripLowerCommute(s[..|s| - 1]);
    } else if s != [] {
      assert !IsSpace(Lower(s)[|s| - 1]);
    }
  }

  /** Lower-casing and stripping commute, so the cut id and the cut original line up. */
  lemma StripLowerCommute(s: string)
    ensures Strip(Lower(s)) == Lower(Strip(s))
  {
    LStripLowerCommute(s);
    RStripLowerCommute(LStrip(s));
  }

  lemma SplitAt(s: string, sep: char, k: nat)
    requires k < |s| && s[k] == sep && sep !in s[..k]
    ensures Split(s, sep) == [s[..k]] + Split(s[k + 1..], sep)
  {
  }

  /** A string with no surrounding whitespace is its own strip. */
  lemma StripSelf(s: string)
    requires s != [] && !IsSpace(s[0]) && !IsSpace(s[|s| - 1])
    ensures Strip(s) == s
  {
  }

  /**
   * The seven '_'-separated fields of a Landsat id whose \w runs hold no
   * underscore sit at fixed positions.
   */
  lemma {:induction false} LandsatSplit(pid: string)
    requires |pid| >= 38
    requires pid[4] == '_' && pid[9] == '_' && pid[16] == '_' && pid[25] == '_' && pid[34] == '_' && pid[37] == '_'
    requires '_' !in pid[..4] && '_' !in pid[5..9] && '_' !in pid[10..16] && '_' !in pid[17..25]
    requires '_' !in pid[26..34] && '_' !in pid[35..37] && '_' !in pid[38..]
    ensures Split(pid, '_') == [pid[..4], pid[5..9], pid[10..16], pid[17..25], pid[26..34], pid[35..37], pid[38..]]
  {
    assert Split(pid[38..], '_') == [pid[38..]];
    SplitFrom(pid, '_', 35, 37);
    SplitFrom(pid, '_', 26, 34);
    SplitFrom(pid, '_', 17, 25);
    SplitFrom(pid, '_', 10, 16);
    SplitFrom(pid, '_', 5, 9);
    SplitFrom(pid, '_', 0, 4);
    assert pid[0..] == pid && pid[0..4] == pid[..4];
    SevenFields(pid[..4], pid[5..9], pid[10..16], pid[17..25], pid[26..34], pid[35..37], pid[38..]);
  }

  /** Seven fields consed one by one make the seven-element list. */
  lemma SevenFields<T>(a: T, b: T, c: T, d: T, e: T, f: T, g: T)
    ensures [a] + ([b] + ([c] + ([d] + ([e] + ([f] + [g]))))) == [a, b, c, d, e, f, g]
  {
  }

  /** The field of s from a up to the separator at b comes first in the split of s[a..]. */
  lemma SplitFrom(s: string, sep: char, a: nat, b: nat)
    requires a <= b < |s| && s[b] == sep && sep !in s[a..b]
    ensures Split(s[a..], sep) == [s[a..b]] + Split(s[b + 1..], sep)
  {
    var t := s[a..];
    assert t[..b - a] == s[a..b] && t[b - a + 1..] == s[b + 1..];
    SplitAt(t, sep, b - a);
  }

  /** The five Landsat entries lead the table; their prefixes hold no underscore and no space. */
  lemma LandsatPrefixes(i: nat)
    requires i < 5
    ensures Patterns[i].LandsatPattern? && |Patterns[i].prefix| == 4
    ensures '_' !in Patterns[i].prefix && '.' !in Patterns[i].prefix && !IsSpace(Patterns[i].prefix[0])
  {
  }

  /** What a Landsat-shaped lower-cased id says about the original-case id. */
  lemma LandsatIdFacts(pid: string, prefix: string)
    requires LandsatShape(Lower(pid), prefix) && '_' !in prefix && !IsSpace(prefix[0])
    requires '_' !in pid[5..9] && '_' !in pid[38..]
    ensures |pid| == 40 && Strip(pid) == pid && AllDigits(pid[35..37])
    ensures pid[4] == '_' && pid[9] == '_' && pid[16] == '_' && pid[25] == '_' && pid[34] == '_' && pid[37] == '_'
    ensures '_' !in pid[..4] && '_' !in pid[10..16] && '_' !in pid[17..25]
    ensures '_' !in pid[26..34] && '_' !in pid[35..37]
  {
    var id := Lower(pid);
    assert forall j :: 0 <= j < 40 ==> id[j] == LowerChar(pid[j]);
    assert '_' !in pid[..4] by {
      forall j | 0 <= j < 4 ensures pid[j] != '_' {
        assert id[..4][j] == prefix[j];
      }
    }
    assert !IsSpace(pid[0]) by {
      assert id[..4][0] == prefix[0];
    }
    assert IsWordChar(id[39]);
    StripSelf(pid);
  }

  /** The value Landsat.__init__ gives a well-formed id. */
  function LandsatOfShape(pid: string, key: string, s: LandsatSensor): Product
    requires |pid| >= 38 && AllDigits(pid[35..37])
  {
    Landsat(pid, key, s, pid[17..21], pid[17..25],
            LStripZeros(pid[10..13]), LStripZeros(pid[13..16]),
            pid[5..9], pid[35..37], pid[38..],
            LandsatJsonBase(s) + NatToString(DigitsValue(pid[35..37])))
  }

  lemma {:induction false} LandsatFieldsOfSplit(pid: string, key: string, s: LandsatSensor)
    requires |pid| >= 38 && Strip(pid) == pid && AllDigits(pid[35..37])
    requires pid[4] == '_' && pid[9] == '_' && pid[16] == '_' && pid[25] == '_' && pid[34] == '_' && pid[37] == '_'
    requires '_' !in pid[..4] && '_' !in pid[5..9] && '_' !in pid[10..16] && '_' !in pid[17..25]
    requires '_' !in pid[26..34] && '_' !in pid[35..37] && '_' !in pid[38..]
    ensures NewLandsat(pid, key, s) == Ok(LandsatOfShape(pid, key, s))
  {
    LandsatSplit(pid);
    var f := Split(pid, '_');
    assert |f| == 7 && f[|f| - 2] == pid[35..37] && f[|f| - 1] == pid[38..];
    assert IntOf(f[|f| - 2]) == Ok(DigitsValue(pid[35..37]));
    assert Slice(f[3], 0, 4) == pid[17..21];
    assert Slice(f[2], 0, 3) == pid[10..13];
    assert Drop(f[2], 3) == pid[13..16];
  }

  /**
   * Landsat.__init__ on a well-formed id: year is the first four digits of
   * the acquisition date, path and row are the halves of the path/row field
   * without leading zeros, and the collection number and category are the
   * last two fields.
   */
  lemma {:induction false} LandsatFields(pid: string, key: string, prefix: string, s: LandsatSensor)
    requires LandsatShape(Lower(pid), prefix) && '_' !in prefix && !IsSpace(prefix[0])
    requires '_' !in pid[5..9] && '_' !in pid[38..]
    ensures |pid| == 40 && AllDigits(pid[35..37])
    ensures NewLandsat(pid, key, s) == Ok(LandsatOfShape(pid, key, s))
  {
    LandsatIdFacts(pid, prefix);
    LandsatFieldsOfSplit(pid, key, s);
  }

  /** The value Modis.__init__ gives a well-formed tile name. */
  function ModisOfShape(pid: string, key: string, p: Platform): Product
    requires |pid| == 41
  {
    var json := "MODIS_" + Upper(key);
    Modis(pid, key, p, pid[..7], pid[9..16], pid[9..13], pid[13..16],
          pid[18..20], pid[21..23], pid[24..27], pid[28..],
          if pid[26] == '5' then json else json + "_V6")
  }

  lemma {:induction false} ModisSplit(pid: string)
    requires |pid| == 41
    requires pid[7] == '.' && pid[16] == '.' && pid[23] == '.' && pid[27] == '.'
    requires '.' !in pid[..7] && '.' !in pid[8..16] && '.' !in pid[17..23]
    requires '.' !in pid[24..27] && '.' !in pid[28..]
    ensures Split(pid, '.') == [pid[..7], pid[8..16], pid[17..23], pid[24..27], pid[28..]]
  {
    assert Split(pid[28..], '.') == [pid[28..]];
    SplitFrom(pid, '.', 24, 27);
    SplitFrom(pid, '.', 17, 23);
    SplitFrom(pid, '.', 8, 16);
    SplitFrom(pid, '.', 0, 7);
    assert pid[0..] == pid && pid[0..7] == pid[..7];
    FiveFields(pid[..7], pid[8..16], pid[17..23], pid[24..27], pid[28..]);
  }

  /** Five fields consed one by one make the five-element list. */
  lemma FiveFields<T>(a: T, b: T, c: T, d: T, e: T)
    ensures [a] + ([b] + ([c] + ([d] + [e]))) == [a, b, c, d, e]
  {
  }

  /** What a MODIS-shaped lower-cased id says about the original-case id. */
  lemma ModisIdFacts(pid: string, key: string)
    requires ModisShape(Lower(pid), key) && '.' !in key && !IsSpace(key[0])
    ensures |pid| == 41 && Strip(pid) == pid
    ensures pid[7] == '.' && pid[16] == '.' && pid[23] == '.' && pid[27] == '.'
    ensures '.' !in pid[..7] && '.' !in pid[8..16] && '.' !in pid[17..23]
    ensures '.' !in pid[24..27] && '.' !in pid[28..]
    ensures pid[24] == '0' && pid[25] == '0' && '5' <= pid[26] <= '6'
  {
    var id := Lower(pid);
    assert forall j :: 0 <= j < 41 ==> id[j] == LowerChar(pid[j]);
    assert '.' !in pid[..7] by {
      forall j | 0 <= j < 7 ensures pid[j] != '.' {
        assert id[..7][j] == key[j];
      }
    }
    assert !IsSpace(pid[0]) by {
      assert id[..7][0] == key[0];
    }
    assert IsDigit(id[40]);
    StripSelf(pid);
  }

  /** int('005') is 5 and int('006') is 6. */
  lemma VersionValue(v: string)
    requires |v| == 3 && v[0] == '0' && v[1] == '0' && IsDigit(v[2])
    ensures AllDigits(v) && DigitsValue(v) == v[2] as int - '0' as int
  {
    assert v[..2][..1][..0] == [];
    assert DigitsValue(v[..2][..1]) == 0;
    assert DigitsValue(v[..2]) == 0;
  }

  lemma {:induction false} ModisFieldsOfSplit(pid: string, key: string, p: Platform)
    requires |pid| == 41 && Strip(pid) == pid
    requires pid[7] == '.' && pid[16] == '.' && pid[23] == '.' && pid[27] == '.'
    requires '.' !in pid[..7] && '.' !in pid[8..16] && '.' !in pid[17..23]
    requires '.' !in pid[24..27] && '.' !in pid[28..]
    requires pid[24] == '0' && pid[25] == '0' && '5' <= pid[26] <= '6'
    ensures NewModis(pid, key, p) == Ok(ModisOfShape(pid, key, p))
  {
    ModisSplit(pid);
    var parts := Split(pid, '.');
    var v := pid[24..27];
    assert parts[3] == v;
    VersionValue(v);
    var n := pid[26] as int - '0' as int;
    assert IntOf(parts[3]) == Ok(n);
    var json := "MODIS_" + Upper(key);
    assert (if n == 5 then json else json + "_V" + NatToString(n))
        == (if pid[26] == '5' then json else json + "_V6") by {
      if n != 5 { assert n == 6; assert NatToString(6) == "6"; }
    }
    assert parts[1] == pid[8..16] && parts[2] == pid[17..23];
    assert pid[8..16][1..] == pid[9..16];
    assert Drop(parts[1], 1) == pid[9..16];
    assert Slice(pid[9..16], 0, 4) == pid[9..13];
    assert Slice(pid[9..16], 4, 8) == pid[13..16];
    assert Slice(parts[2], 1, 3) == pid[18..20];
    assert Slice(parts[2], 4, 6) == pid[21..23];
  }

  /**
   * Modis.__init__ on a well-formed tile name: the acquisition date is the
   * second part less its leading 'A', whose first four characters are the
   * year; the tile numbers are characters 1-2 and 4-5 of the third part; a
   * version 5 collection carries no '_V' suffix in its LTA name.
   */
  lemma {:induction false} ModisFields(pid: string, key: string, p: Platform)
    requires ModisShape(Lower(pid), key) && '.' !in key && !IsSpace(key[0])
    ensures |pid| == 41
    ensures NewModis(pid, key, p) == Ok(ModisOfShape(pid, key, p))
  {
    ModisIdFacts(pid, key);
    ModisFieldsOfSplit(pid, key, p);
  }

  /** No id is accepted by two entries of the table, so dict order cannot matter. */
  lemma PatternsDisjoint(id: string, i: nat, j: nat)
    requires i < |Patterns| && j < |Patterns|
    requires Matches(Patterns[i], id) && Matches(Patterns[j], id)
    ensures i == j
  {
    if i < 5 && j < 5 {
      LandsatIndexOf(i);
      LandsatIndexOf(j);
      assert Patterns[i].prefix == id[..4] == Patterns[j].prefix;
    } else if i >= 5 && j >= 5 {
      ModisIndexOf(i);
      ModisIndexOf(j);
      assert Patterns[i].key == id[..7] == Patterns[j].key;
    }
  }

  /** The table position of a Landsat prefix, read off its characters. */
  function LandsatIndex(prefix: string): nat
    requires |prefix| == 4
  {
    if prefix[1] == 't' then (if prefix[3] == '4' then 0 else 1)
    else if prefix[1] == 'e' then 2
    else if prefix[1] == 'c' then 3
    else 4
  }

  lemma LandsatIndexOf(i: nat)
    requires i < 5
    ensures Patterns[i].LandsatPattern? && |Patterns[i].prefix| == 4 && LandsatIndex(Patterns[i].prefix) == i
  {
  }

  /** The table position of a MODIS key, read off its characters. */
  function ModisIndex(key: string): nat
    requires |key| == 7
  {
    (if key[1] == 'o' then 5 else 14)
    + if key[4] == '9' then (if key[5] == 'a' then 0 else if key[6] == 'a' then 1 else if key[5] == 'g' then 2 else 3)
      else if key[4] == '3' then (if key[5] == 'q' then 7 else if key[6] == '1' then 4 else if key[6] == '2' then 5 else 6)
      else 8
  }

  lemma ModisIndexOf(i: nat)
    requires 5 <= i < |Patterns|
    ensures Patterns[i].ModisPattern? && |Patterns[i].key| == 7 && ModisIndex(Patterns[i].key) == i
  {
  }

  /**
   * instance builds the product of the one pattern that accepts the cut id
   * and records that pattern's key as the shortname.
   */
  lemma InstanceMatching(productId: string, i: nat)
    requires i < |Patterns| && Matches(Patterns[i], CutExtension(productId).1)
    ensures Instance(productId) == Build(i, CutExtension(productId).0)
    ensures Instance(productId).Ok? ==> Instance(productId).value.shortname == Patterns[i].key
  {
    InstanceOfMatching(CutExtension(productId), i);
  }

  lemma InstanceOfMatching(cut: (string, string), i: nat)
    requires i < |Patterns| && Matches(Patterns[i], cut.1)
    ensures InstanceOf(cut) == Build(i, cut.0)
  {
    var f := FindPattern(cut.1, 0);
    PatternsDisjoint(cut.1, f.value, i);
  }

  /** instance raises ProductNotImplemented exactly when no pattern accepts the cut id. */
  lemma InstanceUnsupported(productId: string)
    ensures (Instance(productId).Err? && Instance(productId).error.kind == ProductNotImplemented)
        <==> forall i :: 0 <= i < |Patterns| ==> !Matches(Patterns[i], CutExtension(productId).1)
  {
  }

  lemma LowerConcat(a: string, b: string)
    ensures Lower(a + b) == Lower(a) + Lower(b)
  {
  }

  /** A Landsat-shaped id holds no '.' and begins and ends with a non-space. */
  lemma LandsatCoreFacts(core: string, i: nat)
    requires i < 5 && Matches(Patterns[i], Lower(core))
    ensures |core| == 40 && '.' !in Lower(core)
    ensures !IsSpace(core[0]) && !IsSpace(core[38]) && !IsSpace(core[39])
  {
    LandsatPrefixes(i);
    var prefix := Patterns[i].prefix;
    var lc := Lower(core);
    assert lc[..4] == prefix;
    assert !IsSpace(lc[0]) by { assert lc[..4][0] == prefix[0]; }
    assert forall j :: 0 <= j < 40 ==> lc[j] != '.' by {
      forall j | 0 <= j < 4 ensures lc[j] != '.' { assert lc[..4][j] == prefix[j]; }
    }
    assert IsWordChar(lc[38]) && IsWordChar(lc[39]);
  }

  /** Stripping and lower-casing " " + core + ".tar.gz". */
  lemma PaddedId(core: string)
    requires core != [] && !IsSpace(core[0])
    ensures Strip(Lower(" " + core + LandsatExtension)) == Lower(core) + LandsatExtension
    ensures Strip(" " + core + LandsatExtension) == core + LandsatExtension
  {
    PaddedLower(core);
    assert " " + core + LandsatExtension == " " + (core + LandsatExtension);
    PaddedStrip(core + LandsatExtension);
  }

  /** Lower-casing the padded id lower-cases the core alone. */
  lemma PaddedLower(core: string)
    requires core != [] && !IsSpace(core[0])
    ensures Strip(Lower(" " + core + LandsatExtension)) == Lower(core) + LandsatExtension
  {
    LowerConcat(" " + core, LandsatExtension);
    LowerConcat(" ", core);
    assert Lower(" ") == " " && Lower(LandsatExtension) == LandsatExtension;
    var id := Lower(core) + LandsatExtension;
    assert Lower(" " + core + LandsatExtension) == " " + id;
    assert !IsSpace(id[0]);
    PaddedStrip(id);
  }

  /** One leading space before a word ending in the Landsat extension is all that strip removes. */
  lemma PaddedStrip(w: string)
    requires |w| > |LandsatExtension| && !IsSpace(w[0]) && w[|w| - 1] == 'z'
    ensures Strip(" " + w) == w
  {
    assert (" " + w)[1..] == w;
    assert LStrip(" " + w) == w;
  }

  /** The first '.tar.gz' in a 40-character run without '.' plus '.tar.gz' is the trailing one. */
  lemma TrailingCut(lc: string)
    requires |lc| == 40 && '.' !in lc
    ensures ExtensionOf(lc + LandsatExtension) == Some(LandsatExtension)
    ensures ExtensionIndex(lc + LandsatExtension, LandsatExtension) == 40
  {
    var id := lc + LandsatExtension;
    assert id[|id| - 1] == 'z';
    assert id[40..] == LandsatExtension;
    assert OccursAt(id, LandsatExtension, 40);
    forall j | 0 <= j < 40 ensures !OccursAt(id, LandsatExtension, j) {
      assert id[j] == lc[j];
    }
  }

  /**
   * The two extension cuts of " " + core + ".tar.gz" for a Landsat-shaped
   * core: the id and the original are cut at the same place only when the
   * cut is applied to the stripped original.
   */
  lemma PaddedCuts(core: string, i: nat)
    requires i < 5 && Matches(Patterns[i], Lower(core))
    ensures |core| == 40
    ensures CutExtension(" " + core + LandsatExtension) == (core, Lower(core))
    ensures CutExtensionAsWritten(" " + core + LandsatExtension) == (" " + core[..39], Lower(core))
  {
    LandsatCoreFacts(core, i);
    PaddedId(core);
    TrailingCut(Lower(core));
    var s := " " + core + LandsatExtension;
    assert (Lower(core) + LandsatExtension)[..40] == Lower(core);
    assert (core + LandsatExtension)[..40] == core;
    assert Slice(s, 0, 40) == " " + core[..39];
  }

  /** Dropping the last character keeps the field layout of a well-formed Landsat id. */
  lemma TruncatedLayout(pid: string)
    requires |pid| == 40 && Strip(pid) == pid && AllDigits(pid[35..37]) && !IsSpace(pid[0]) && !IsSpace(pid[38])
    requires pid[4] == '_' && pid[9] == '_' && pid[16] == '_' && pid[25] == '_' && pid[34] == '_' && pid[37] == '_'
    requires '_' !in pid[..4] && '_' !in pid[5..9] && '_' !in pid[10..16] && '_' !in pid[17..25]
    requires '_' !in pid[26..34] && '_' !in pid[35..37] && '_' !in pid[38..]
    ensures var c := pid[..39];
      Strip(c) == c && Strip(" " + c) == c && AllDigits(c[35..37])
      && c[4] == '_' && c[9] == '_' && c[16] == '_' && c[25] == '_' && c[34] == '_' && c[37] == '_'
      && '_' !in c[..4] && '_' !in c[5..9] && '_' !in c[10..16] && '_' !in c[17..25]
      && '_' !in c[26..34] && '_' !in c[35..37] && '_' !in c[38..]
  {
    var c := pid[..39];
    assert c[..4] == pid[..4] && c[5..9] == pid[5..9] && c[10..16] == pid[10..16];
    assert c[17..25] == pid[17..25] && c[26..34] == pid[26..34] && c[35..37] == pid[35..37];
    assert c[38..] == pid[38..39];
    StripSelf(c);
    assert (" " + c)[1..] == c;
  }

  /** NewLandsat only sees the stripped id. */
  lemma NewLandsatStrips(a: string, b: string, key: string, s: LandsatSensor)
    requires Strip(a) == Strip(b)
    ensures NewLandsat(a, key, s) == NewLandsat(b, key, s)
  {
  }

  /**
   * instance on " " + id + ".tar.gz" for a well-formed Landsat id, with the
   * cut applied to the stripped original: the same product as the bare id,
   * collection category included.
   */
  lemma PaddedInstance(core: string, i: nat)
    requires i < 5 && Matches(Patterns[i], Lower(core))
    requires '_' !in core[5..9] && '_' !in core[38..]
    ensures |core| == 40 && AllDigits(core[35..37])
    ensures Instance(" " + core + LandsatExtension)
         == Ok(LandsatOfShape(core, Patterns[i].key, Patterns[i].sensor))
  {
    LandsatPrefixes(i);
    PaddedCuts(core, i);
    InstanceMatching(" " + core + LandsatExtension, i);
    LandsatFields(core, Patterns[i].key, Patterns[i].prefix, Patterns[i].sensor);
  }

  /**
   * instance as written on " " + id + ".tar.gz": the cut meant for the
   * stripped id is applied to the padded original, so the constructor gets
   * the id less its last character and the two-letter collection category
   * comes out as one letter.
   */
  lemma PaddedInstanceAsWritten(core: string, i: nat)
    requires i < 5 && Matches(Patterns[i], Lower(core))
    requires '_' !in core[5..9] && '_' !in core[38..]
    ensures |core| == 40 && AllDigits(core[35..37])
    ensures InstanceAsWritten(" " + core + LandsatExtension)
         == Ok(LandsatOfShape(core[..39], Patterns[i].key, Patterns[i].sensor))
    ensures LandsatOfShape(core[..39], Patterns[i].key, Patterns[i].sensor).collectionCategory == core[38..39]
  {
    LandsatPrefixes(i);
    var p := Patterns[i];
    PaddedCuts(core, i);
    InstanceOfMatching(CutExtensionAsWritten(" " + core + LandsatExtension), i);
    LandsatCoreFacts(core, i);
    LandsatIdFacts(core, p.prefix);
    TruncatedLayout(core);
    var c := core[..39];
    NewLandsatStrips(" " + c, c, p.key, p.sensor);
    LandsatFieldsOfSplit(c, p.key, p.sensor);
  }

  // ------------------------------------------------- available_products

  /** Outputs and inputs of one shortname. */
  datatype Group = Group(products: seq<string>, inputs: seq<string>)

  /** The result of available_products; an empty notImplemented means the key is absent. */
  datatype Availability = Availability(groups: map<string, Group>, notImplemented: seq<string>)

  /*
   * The grouping below is stated for any classifier `classify`; the
   * module applies it to Instance. Keeping the classifier a parameter
   * keeps the loop's proof independent of how ids are parsed.
   */

  /** classify(id) either succeeds or raises ProductNotImplemented. */
  predicate Classifies(classify: string -> Result<Product>, id: string)
  {
    classify(id).Ok? || classify(id).error.kind == ProductNotImplemented
  }

  predicate HasShortname(classify: string -> Result<Product>, id: string, key: string)
  {
    classify(id).Ok? && classify(id).value.shortname == key
  }

  predicate NotImplemented(classify: string -> Result<Product>, id: string)
  {
    classify(id).Err? && classify(id).error.kind == ProductNotImplemented
  }

  /** The ids whose shortname is key, in input order. */
  function InputsOf(classify: string -> Result<Product>, ids: seq<string>, key: string): (r: seq<string>)
    ensures forall j :: 0 <= j < |r| ==> HasShortname(classify, r[j], key)
  {
    if ids == [] then []
    else
      var rest := InputsOf(classify, ids[..|ids| - 1], key);
      if HasShortname(classify, ids[|ids| - 1], key) then rest + [ids[|ids| - 1]] else rest
  }

  /** The ids the classifier does not recognise, in input order. */
  function UnsupportedOf(classify: string -> Result<Product>, ids: seq<string>): (r: seq<string>)
    ensures forall j :: 0 <= j < |r| ==> NotImplemented(classify, r[j])
  {
    if ids == [] then []
    else
      var rest := UnsupportedOf(classify, ids[..|ids| - 1]);
      if NotImplemented(classify, ids[|ids| - 1]) then rest + [ids[|ids| - 1]] else rest
  }

  /** One more input extends exactly the group of its shortname, or the unsupported list. */
  lemma GroupSnoc(classify: string -> Result<Product>, ids: seq<string>, id: string)
    ensures forall k :: InputsOf(classify, ids + [id], k)
                        == (if HasShortname(classify, id, k) then InputsOf(classify, ids, k) + [id] else InputsOf(classify, ids, k))
    ensures forall k :: InputsOf(classify, ids, k) != [] ==> InputsOf(classify, ids + [id], k)[0] == InputsOf(classify, ids, k)[0]
    ensures UnsupportedOf(classify, ids + [id])
            == if NotImplemented(classify, id) then UnsupportedOf(classify, ids) + [id] else UnsupportedOf(classify, ids)
  {
    assert (ids + [id])[..|ids|] == ids;
  }

  /** Every input lands in exactly one place: its shortname's group or the unsupported list. */
  lemma {:induction false} Partition(classify: string -> Result<Product>, ids: seq<string>, id: string)
    requires forall j :: 0 <= j < |ids| ==> Classifies(classify, ids[j])
    ensures multiset(ids)[id] ==
      multiset(UnsupportedOf(classify, ids))[id]
      + (if classify(id).Ok? then multiset(InputsOf(classify, ids, classify(id).value.shortname))[id] else 0)
  {
    if ids != [] {
      var front := ids[..|ids| - 1];
      var last := ids[|ids| - 1];
      assert ids == front + [last];
      Partition(classify, front, id);
    }
  }

  /** The strings a Python 2 loop over a list or a dict's keys visits, if all are strings. */
  predicate AllStrings(items: seq<Json>)
  {
    forall j :: 0 <= j < |items| ==> items[j].JStr?
  }

  function Ids(items: seq<Json>): (r: seq<string>)
    requires AllStrings(items)
    ensures |r| == |items| && forall j :: 0 <= j < |items| ==> items[j] == JStr(r[j])
  {
    seq(|items|, j requires 0 <= j < |items| => items[j].s)
  }

  /** Some order of a finite set of strings, as iterating a dict gives. */
  method KeysInSomeOrder(keys: set<string>) returns (order: seq<string>)
    ensures |order| == |keys| && forall x :: x in order <==> x in keys
    ensures forall a, b :: 0 <= a < b < |order| ==> order[a] != order[b]
  {
    order := [];
    var rest := keys;
    while rest != {}
      invariant rest <= keys && |order| + |rest| == |keys|
      invariant forall x :: x in order <==> x in keys && x !in rest
      invariant forall a, b :: 0 <= a < b < |order| ==> order[a] != order[b]
      decreases |rest|
    {
      var k :| k in rest;
      order := order + [k];
      rest := rest - {k};
    }
  }

  /** acc is what the loop of available_products has built after visiting ids. */
  ghost predicate Summarises(classify: string -> Result<Product>, acc: Availability, ids: seq<string>)
  {
    && acc.notImplemented == UnsupportedOf(classify, ids)
    && (forall k :: k in acc.groups <==> InputsOf(classify, ids, k) != [])
    && (forall k :: k in acc.groups ==>
          acc.groups[k].inputs == InputsOf(classify, ids, k)
          && acc.groups[k].products == classify(InputsOf(classify, ids, k)[0]).value.Products())
  }

  /** One pass of the loop body for an id the classifier accepts or rejects as not implemented. */
  function Absorb(acc: Availability, id: string, inst: Result<Product>): Availability
  {
    match inst
    case Ok(p) =>
      var name := p.shortname;
      if name in acc.groups then
        acc.(groups := acc.groups[name := Group(acc.groups[name].products, acc.groups[name].inputs + [id])])
      else
        acc.(groups := acc.groups[name := Group(p.Products(), [id])])
    case Err(_) => acc.(notImplemented := acc.notImplemented + [id])
  }

  lemma AbsorbSummarises(classify: string -> Result<Product>, acc: Availability, ids: seq<string>, id: string)
    requires Summarises(classify, acc, ids) && Classifies(classify, id)
    ensures Summarises(classify, Absorb(acc, id, classify(id)), ids + [id])
  {
    GroupSnoc(classify, ids, id);
  }

  /**
   * The loop of available_products over the visited items: group the
   * inputs by shortname in input order, each group carrying the products
   * of its first member, and collect the unrecognised ids. Any other
   * exception from the classifier escapes; a non-string item has no lower().
   */
  method GroupInputs(classify: string -> Result<Product>, items: seq<Json>) returns (r: Result<Availability>)
    ensures r.Ok? <==> AllStrings(items) && forall j :: 0 <= j < |items| ==> Classifies(classify, items[j].s)
    ensures r.Ok? ==> Summarises(classify, r.value, Ids(items))
    ensures r.Err? ==> r.error.kind == AttributeError || r.error.kind != ProductNotImplemented
  {
    var acc := Availability(map[], []);
    ghost var ids: seq<string> := [];
    var i := 0;
    while i < |items|
      invariant 0 <= i <= |items| && |ids| == i
      invariant forall j :: 0 <= j < i ==> items[j] == JStr(ids[j])
      invariant forall j :: 0 <= j < i ==> Classifies(classify, ids[j])
      invariant Summarises(classify, acc, ids)
    {
      if !items[i].JStr? {
        return Err(Raised(AttributeError, "object has no attribute 'lower'"));
      }
      var id := items[i].s;
      var inst := classify(id);
      if inst.Err? && inst.error.kind != ProductNotImplemented {
        return Err(inst.error);
      }
      AbsorbSummarises(classify, acc, ids, id);
      acc := Absorb(acc, id, inst);
      ids := ids + [id];
      i := i + 1;
    }
    assert ids == Ids(items);
    r := Ok(acc);
  }

  /**
   * sensor.available_products: a list is iterated in order, a dict over its
   * keys in some order (returned as `visited`); anything else is a TypeError.
   */
  method AvailableProducts(input: Json) returns (r: Result<Availability>, visited: seq<Json>)
    ensures !HasIter(input) ==> r == Err(Raised(TypeError, "input_products must be iterable"))
    ensures input.JList? ==> visited == input.items
    ensures input.JObj? ==> |visited| == |input.fields.Keys| && AllStrings(visited)
    ensures input.JObj? ==> forall k :: JStr(k) in visited <==> k in input.fields
    ensures HasIter(input) ==>
      (r.Ok? <==> AllStrings(visited) && forall j :: 0 <= j < |visited| ==> Classifies(Instance, visited[j].s))
    ensures r.Ok? ==> Summarises(Instance, r.value, Ids(visited))
  {
    visited := [];
    if !HasIter(input) {
      return Err(Raised(TypeError, "input_products must be iterable")), visited;
    }
    if input.JList? {
      visited := input.items;
    } else {
      visited := VisitKeys(input.fields);
    }
    r := GroupInputs(Instance, visited);
  }

  /** Iterating a dict visits each of its keys once, in some order. */
  method VisitKeys(fields: map<string, Json>) returns (visited: seq<Json>)
    ensures |visited| == |fields.Keys| && AllStrings(visited)
    ensures forall k :: JStr(k) in visited <==> k in fields
  {
    var order := KeysInSomeOrder(fields.Keys);
    visited := StrList(order);
    forall k
      ensures JStr(k) in visited <==> k in fields
    {
      if JStr(k) in visited {
        var j :| 0 <= j < |visited| && visited[j] == JStr(k);
        assert order[j] == k;
      }
      if k in fields {
        var j :| 0 <= j < |order| && order[j] == k;
        assert visited[j] == JStr(k);
      }
    }
  }
}

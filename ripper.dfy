  /**
 * The metadata ripper (`tools/ripper.ts`): the 32-bit string hash that keys every
 * track, the shell escaping of a track path, the `process` step that turns the probed
 * records into the master list, and the `error` policy.
 *
 * The directory walk and `ffprobe` runs are I/O; `process` receives the records they
 * produce and the set of cover files that exist.
 */
module MetaRipper {
  import opened Wrappers
  import opened JsNumbers
  import opened JsStrings
  import opened Tracks

  // ---------------------------------------------------------------------------
  // simpleHash

  /** `hash = 31 * hash + code` in 32-bit signed arithmetic, over the code units in order. */
  function HashValue(units: seq<CodeUnit>): Int32
    decreases |units|
  {
    if |units| == 0 then 0
    else ToInt32(31 * HashValue(units[..|units| - 1]) + units[|units| - 1])
  }

  /** `(hash >>> 0).toString(16).padStart(8, '0')`. */
  function HashHex(hash: Int32): string
  {
    PadStart(ToStringRadix(ToUint32(hash), 16), 8, '0')
  }

  /** `((h << 5) - h) + c`, then `| 0`, equals ToInt32(31 * h + c). */
  lemma ShiftStep(h: Int32, c: CodeUnit)
    ensures ToInt32(ToInt32(h * 32) - h + c) == ToInt32(31 * h + c)
  {
    var s := ToInt32(h * 32);
    var q := (h * 32 - s) / TWO_32;
    assert h * 32 - s == q * TWO_32;
    assert (ToInt32(h * 32) - h + c) - (31 * h + c) == -q * TWO_32;
    ModShift(0, -q);
    ToInt32Congruent(ToInt32(h * 32) - h + c, 31 * h + c);
  }

  /** The rendered hash is 8 lower-case hex digits reading as the hash's unsigned value. */
  lemma HashHexShape(hash: Int32)
    ensures |HashHex(hash)| == 8
    ensures AllDigits(HashHex(hash), 16)
    ensures DigitsValue(HashHex(hash), 16) == ToUint32(hash)
  {
    assert Pow(16, 8) == TWO_32;
    PaddedRendering(ToUint32(hash), 16, 8);
  }

  /** Different 32-bit hashes never render alike: the rendering loses nothing. */
  lemma HashHexInjective(a: Int32, b: Int32)
    requires HashHex(a) == HashHex(b)
    ensures a == b
  {
    HashHexShape(a);
    HashHexShape(b);
    Int32AsUint32(a);
    Int32AsUint32(b);
  }

  /** The empty string hashes to "00000000". */
  lemma EmptyHash()
    ensures HashHex(HashValue(Utf16(""))) == "00000000"
  {
    assert ToStringRadix(0, 16) == "0";
  }

  /** "Aa" and "BB" collide: 31 * 65 + 97 == 31 * 66 + 66. */
  lemma HashCollision()
    ensures HashHex(HashValue(Utf16("Aa"))) == HashHex(HashValue(Utf16("BB")))
  {
    assert Utf16("A") == [65];
    assert Utf16("Aa") == [65, 97];
    assert Utf16("B") == [66];
    assert Utf16("BB") == [66, 66];
    assert [65, 97][..1] == [65] && [66, 66][..1] == [66];
    assert HashValue([65, 97]) == 2112;
    assert HashValue([66, 66]) == 2112;
  }

  // ---------------------------------------------------------------------------
  // Path escaping

  /** The characters the escaping step protects inside a double-quoted shell argument. */
  predicate IsSpecial(c: char)
  {
    c == '"' || c == '\\' || c == '$' || c == '`'
  }

  /** `trackPath.replace(/(["\\$`])/g, '\\$1')`. */
  function EscapePath(s: string): (r: string)
    decreases |s|
  {
    if |s| == 0 then ""
    else (if IsSpecial(s[0]) then ['\\', s[0]] else [s[0]]) + EscapePath(s[1..])
  }

  function CountSpecial(s: string): nat
    decreases |s|
  {
    if |s| == 0 then 0 else (if IsSpecial(s[0]) then 1 else 0) + CountSpecial(s[1..])
  }

  /**
   * The word a POSIX shell reads from the text between double quotes: a backslash in front
   * of `"`, `\`, `$` or a backquote quotes that character and is removed, a backslash in
   * front of a newline is removed with the newline, and any other backslash stays.
   */
  function UnescapePath(r: string): string
    decreases |r|
  {
    if |r| == 0 then ""
    else if r[0] == '\\' && |r| >= 2 && IsSpecial(r[1]) then [r[1]] + UnescapePath(r[2..])
    else if r[0] == '\\' && |r| >= 2 && r[1] == '\n' then UnescapePath(r[2..])
    else [r[0]] + UnescapePath(r[1..])
  }

  /** Escaping adds exactly one backslash per protected character. */
  lemma {:induction false} EscapeLength(s: string)
    ensures |EscapePath(s)| == |s| + CountSpecial(s)
    decreases |s|
  {
    if |s| > 0 {
      EscapeLength(s[1..]);
    }
  }

  /** The shell reads the escaped path between double quotes back as the original path. */
  lemma {:induction false} EscapeRoundTrip(s: string)
    ensures UnescapePath(EscapePath(s)) == s
    decreases |s|
  {
    if |s| > 0 {
      EscapeRoundTrip(s[1..]);
      var rest := EscapePath(s[1..]);
      if IsSpecial(s[0]) {
        assert (['\\', s[0]] + rest)[2..] == rest;
      } else {
        assert ([s[0]] + rest)[1..] == rest;
      }
      assert [s[0]] + s[1..] == s;
    }
  }

  /** A path without protected characters passes through unchanged. */
  lemma {:induction false} EscapeIdentity(s: string)
    requires forall i :: 0 <= i < |s| ==> !IsSpecial(s[i])
    ensures EscapePath(s) == s
    decreases |s|
  {
    if |s| > 0 {
      EscapeIdentity(s[1..]);
      assert [s[0]] + s[1..] == s;
    }
  }

  // ---------------------------------------------------------------------------
  // process

  /** The `format.tags` part of an `ffprobe` record that `process` reads. */
  datatype Tags = Tags(title: string, artist: string, album: string, date: string)

  /** `AsaRecordRaw`, the fields `process` reads. */
  datatype RawRecord = RawRecord(filename: string, size: string, bitRate: string, duration: string, tags: Tags)

  /** The hash input: album, artist and title run together. */
  function HashInput(rec: RawRecord): string
  {
    rec.tags.album + rec.tags.artist + rec.tags.title
  }

  /** The master-list key of a record. */
  function Key(rec: RawRecord): string
  {
    HashHex(HashValue(Utf16(HashInput(rec))))
  }

  /** The file name's segments after the first, joined with `/`. */
  function AudioUri(filename: string): string
  {
    Join(Split(filename, '/')[1..], '/')
  }

  /** `<first segment of the audio URI>/cover.jpg` when that file exists, else `.../cover.png`. */
  function CoverUri(audioUri: string, existing: set<string>): string
  {
    var jpg := Split(audioUri, '/')[0] + "/cover.jpg";
    var png := Split(audioUri, '/')[0] + "/cover.png";
    if jpg in existing then jpg else png
  }

  function MetaOf(rec: RawRecord, existing: set<string>): TrackMeta
  {
    var audioUri := AudioUri(rec.filename);
    TrackMeta(rec.tags.title, rec.tags.artist, rec.tags.album, rec.tags.date,
              CoverUri(audioUri, existing), audioUri, rec.duration, rec.size, rec.bitRate)
  }

  function DuplicateMessage(rec: RawRecord): string
  {
    "Duplicate track detected: " + rec.tags.title + " by " + rec.tags.artist + " in album " + rec.tags.album
  }

  /** What `process` derives from one record: its key, its metadata and its duplicate message. */
  datatype Candidate = Candidate(key: string, meta: TrackMeta, duplicateMsg: string)

  function CandidateOf(rec: RawRecord, existing: set<string>): Candidate
  {
    Candidate(Key(rec), MetaOf(rec, existing), DuplicateMessage(rec))
  }

  function Candidates(records: seq<RawRecord>, existing: set<string>): (cs: seq<Candidate>)
    ensures |cs| == |records|
    ensures forall i {:trigger records[i]} :: 0 <= i < |records| ==> cs[i] == CandidateOf(records[i], existing)
    decreases |records|
  {
    if |records| == 0 then []
    else
      var init := records[..|records| - 1];
      assert forall i {:trigger records[i]} :: 0 <= i < |init| ==> init[i] == records[i];
      Candidates(init, existing) + [CandidateOf(records[|records| - 1], existing)]
  }

  /**
   * The listing loop over the candidates in order: a key already listed is a duplicate, which
   * throws under exit-on-error and is skipped otherwise; a new key is listed with its metadata.
   */
  function Dedup(cs: seq<Candidate>, exitOnError: bool): Result<MasterList>
    decreases |cs|
  {
    if |cs| == 0 then Ok([])
    else
      match Dedup(cs[..|cs| - 1], exitOnError)
      case Err(msg) => Err(msg)
      case Ok(listing) =>
        var c := cs[|cs| - 1];
        if c.key in Keys(listing) then
          if exitOnError then Err(c.duplicateMsg) else Ok(listing)
        else Ok(listing + [(c.key, c.meta)])
  }

  /** What `process` computes for the records in order. */
  function ProcessSpec(records: seq<RawRecord>, exitOnError: bool, existing: set<string>): Result<MasterList>
  {
    Dedup(Candidates(records, existing), exitOnError)
  }

  /** Once a prefix of the candidates has thrown, the whole run throws the same error. */
  lemma {:induction false} DedupErrSticky(cs: seq<Candidate>, i: nat, exitOnError: bool)
    requires i <= |cs| && Dedup(cs[..i], exitOnError).Err?
    ensures Dedup(cs, exitOnError) == Dedup(cs[..i], exitOnError)
    decreases |cs| - i
  {
    if i < |cs| {
      assert cs[..i + 1][..i] == cs[..i];
      DedupErrSticky(cs, i + 1, exitOnError);
    } else {
      assert cs[..i] == cs;
    }
  }

  /** The listing holds each key once and no more entries than there are candidates. */
  lemma {:induction false} DedupKeysDistinct(cs: seq<Candidate>, exitOnError: bool)
    requires Dedup(cs, exitOnError).Ok?
    ensures KeysDistinct(Dedup(cs, exitOnError).value)
    ensures |Dedup(cs, exitOnError).value| <= |cs|
    decreases |cs|
  {
    if |cs| > 0 {
      var init := cs[..|cs| - 1];
      var c := cs[|cs| - 1];
      assert Dedup(init, exitOnError).Ok?;
      DedupKeysDistinct(init, exitOnError);
      var before := Dedup(init, exitOnError).value;
      if c.key !in Keys(before) {
        var listing := before + [(c.key, c.meta)];
        assert Dedup(cs, exitOnError).value == listing;
        forall i, j | 0 <= i < j < |listing| ensures listing[i].0 != listing[j].0 {
          if j == |before| {
            assert listing[i].0 == Keys(before)[i];
          }
        }
      }
    }
  }

  /** A candidate that no earlier candidate shares its key with. */
  predicate FirstWithKey(cs: seq<Candidate>, i: nat)
    requires i < |cs|
  {
    forall j :: 0 <= j < i ==> cs[j].key != cs[i].key
  }

  /** First wins: every key is listed, and every entry is the key and metadata of the first candidate with that key. */
  lemma {:induction false} DedupFirstWins(cs: seq<Candidate>, exitOnError: bool)
    requires Dedup(cs, exitOnError).Ok?
    ensures var listing := Dedup(cs, exitOnError).value;
      && (forall i :: 0 <= i < |cs| ==> cs[i].key in Keys(listing))
      && (forall e :: e in listing ==> exists i :: 0 <= i < |cs| && FirstWithKey(cs, i) && e == (cs[i].key, cs[i].meta))
    decreases |cs|
  {
    if |cs| > 0 {
      var init := cs[..|cs| - 1];
      DedupFirstWins(init, exitOnError);
      var last := cs[|cs| - 1];
      var before := Dedup(init, exitOnError).value;
      var listing := Dedup(cs, exitOnError).value;
      assert forall i :: 0 <= i < |init| ==> init[i] == cs[i];
      forall e | e in listing
        ensures exists i :: 0 <= i < |cs| && FirstWithKey(cs, i) && e == (cs[i].key, cs[i].meta)
      {
        if e in before {
          var i :| 0 <= i < |init| && FirstWithKey(init, i) && e == (init[i].key, init[i].meta);
          assert FirstWithKey(cs, i);
        } else {
          assert e == (last.key, last.meta);
          forall j | 0 <= j < |cs| - 1 ensures cs[j].key != last.key {
            assert init[j].key in Keys(before);
          }
          assert FirstWithKey(cs, |cs| - 1);
        }
      }
    }
  }

  /** The loop throws exactly when exit-on-error is set and two candidates share a key. */
  lemma {:induction false} DedupFails(cs: seq<Candidate>, exitOnError: bool)
    ensures Dedup(cs, exitOnError).Err? <==>
      exitOnError && exists i, j :: 0 <= i < j < |cs| && cs[i].key == cs[j].key
    decreases |cs|
  {
    if |cs| > 0 {
      var init := cs[..|cs| - 1];
      DedupFails(init, exitOnError);
      var prev := Dedup(init, exitOnError);
      if prev.Err? {
        var i, j :| 0 <= i < j < |init| && init[i].key == init[j].key;
        assert cs[i] == init[i] && cs[j] == init[j];
      } else if cs[|cs| - 1].key in Keys(prev.value) {
        EarlierSharesKey(cs, exitOnError);
      } else if exitOnError {
        NoKeyShared(cs, exitOnError);
      }
    }
  }

  /** A last candidate whose key the listing so far already holds shares it with an earlier candidate. */
  lemma EarlierSharesKey(cs: seq<Candidate>, exitOnError: bool)
    requires |cs| > 0 && Dedup(cs[..|cs| - 1], exitOnError).Ok?
    requires cs[|cs| - 1].key in Keys(Dedup(cs[..|cs| - 1], exitOnError).value)
    ensures exists i :: 0 <= i < |cs| - 1 && cs[i].key == cs[|cs| - 1].key
  {
    var init := cs[..|cs| - 1];
    var before := Dedup(init, exitOnError).value;
    DedupFirstWins(init, exitOnError);
    var k :| 0 <= k < |before| && Keys(before)[k] == cs[|cs| - 1].key;
    assert before[k] in before;
    var i :| 0 <= i < |init| && FirstWithKey(init, i) && before[k] == (init[i].key, init[i].meta);
    assert cs[i] == init[i];
  }

  /** With no shared key among the earlier candidates and a new last key, no two candidates share a key. */
  lemma NoKeyShared(cs: seq<Candidate>, exitOnError: bool)
    requires |cs| > 0 && Dedup(cs[..|cs| - 1], exitOnError).Ok?
    requires cs[|cs| - 1].key !in Keys(Dedup(cs[..|cs| - 1], exitOnError).value)
    requires var init := cs[..|cs| - 1];
      !exists i, j :: 0 <= i < j < |init| && init[i].key == init[j].key
    ensures !exists i, j :: 0 <= i < j < |cs| && cs[i].key == cs[j].key
  {
    var init := cs[..|cs| - 1];
    var before := Dedup(init, exitOnError).value;
    DedupFirstWins(init, exitOnError);
    forall i, j | 0 <= i < j < |cs| ensures cs[i].key != cs[j].key {
      assert cs[i] == init[i];
      if j == |cs| - 1 {
        assert init[i].key in Keys(before);
      } else {
        assert cs[j] == init[j];
      }
    }
  }

  /** Over the records: the listing has distinct keys, at most one entry per record, and first wins. */
  lemma ProcessListing(records: seq<RawRecord>, exitOnError: bool, existing: set<string>)
    requires ProcessSpec(records, exitOnError, existing).Ok?
    ensures var listing := ProcessSpec(records, exitOnError, existing).value;
      && KeysDistinct(listing) && |listing| <= |records|
      && (forall i :: 0 <= i < |records| ==> Key(records[i]) in Keys(listing))
      && (forall e :: e in listing ==> exists i :: (0 <= i < |records| && e == (Key(records[i]), MetaOf(records[i], existing))
            && forall j :: 0 <= j < i ==> Key(records[j]) != Key(records[i])))
  {
    var cs := Candidates(records, existing);
    DedupKeysDistinct(cs, exitOnError);
    DedupFirstWins(cs, exitOnError);
    var listing := Dedup(cs, exitOnError).value;
    forall e | e in listing
      ensures exists i :: (0 <= i < |records| && e == (Key(records[i]), MetaOf(records[i], existing))
            && forall j :: 0 <= j < i ==> Key(records[j]) != Key(records[i]))
    {
      var i :| 0 <= i < |cs| && FirstWithKey(cs, i) && e == (cs[i].key, cs[i].meta);
      assert cs[i] == CandidateOf(records[i], existing);
      forall j | 0 <= j < i ensures Key(records[j]) != Key(records[i]) {
        assert cs[j] == CandidateOf(records[j], existing);
        assert cs[j].key != cs[i].key;
      }
    }
    forall i | 0 <= i < |records| ensures Key(records[i]) in Keys(listing) {
      assert cs[i] == CandidateOf(records[i], existing);
    }
  }

  /** Over the records: `process` throws exactly when exit-on-error is set and two records share a key. */
  lemma ProcessFails(records: seq<RawRecord>, exitOnError: bool, existing: set<string>)
    ensures ProcessSpec(records, exitOnError, existing).Err? <==>
      exitOnError && exists i, j :: 0 <= i < j < |records| && Key(records[i]) == Key(records[j])
  {
    var cs := Candidates(records, existing);
    DedupFails(cs, exitOnError);
    if Dedup(cs, exitOnError).Err? {
      var i, j :| 0 <= i < j < |cs| && cs[i].key == cs[j].key;
      assert cs[i] == CandidateOf(records[i], existing) && cs[j] == CandidateOf(records[j], existing);
    }
    if exitOnError && exists i, j :: 0 <= i < j < |records| && Key(records[i]) == Key(records[j]) {
      var i, j :| 0 <= i < j < |records| && Key(records[i]) == Key(records[j]);
      assert cs[i] == CandidateOf(records[i], existing) && cs[j] == CandidateOf(records[j], existing);
    }
  }

  /** The audio URI is the file name after its first `/` (the top-level directory dropped). */
  lemma AudioUriAfterFirst(filename: string)
    ensures AudioUri(filename) == AfterFirst(filename, '/')
    ensures '/' in filename ==> BeforeFirst(filename, '/') + "/" + AudioUri(filename) == filename
  {
    DropFirstPiece(filename, '/');
    AroundFirst(filename, '/');
  }

  /** The cover sits in the audio URI's first directory: `cover.jpg` if it exists, else `cover.png`. */
  lemma CoverChoice(audioUri: string, existing: set<string>)
    ensures var dir := BeforeFirst(audioUri, '/');
      CoverUri(audioUri, existing) == if dir + "/cover.jpg" in existing then dir + "/cover.jpg" else dir + "/cover.png"
  {
    FirstPiece(audioUri, '/');
  }

  /**
   * Keys are hashes of the fields run together, so records that split the same text differently
   * across album and artist share a key: the second is reported as a duplicate.
   */
  lemma FieldBoundaryCollision(a: RawRecord, b: RawRecord)
    requires a.tags.album == "ab" && a.tags.artist == "c"
    requires b.tags.album == "a" && b.tags.artist == "bc" && b.tags.title == a.tags.title
    ensures a != b && Key(a) == Key(b)
    ensures ProcessSpec([a, b], true, {}).Err?
  {
    assert HashInput(a) == HashInput(b);
    ProcessFails([a, b], true, {});
    assert Key([a, b][0]) == Key([a, b][1]);
  }

  // ---------------------------------------------------------------------------
  // The ripper object

  class Ripper {
    /** Whether `error` throws (the default) or only warns. */
    var exitOnError: bool

    constructor()
      ensures exitOnError
    {
      exitOnError := true;
    }

    /** `error(msg)`: throws the message under exit-on-error, otherwise only warns and returns. */
    function Error(msg: string): (o: Outcome)
      reads this
      ensures o.Fail? <==> exitOnError
      ensures o.Fail? ==> o.msg == msg
    {
      if exitOnError then Fail(msg) else Pass
    }

    /** `simpleHash(str)`: the loop over the string's UTF-16 code units, then the hex rendering. */
    method SimpleHash(str: string) returns (hex: string)
      ensures hex == HashHex(HashValue(Utf16(str)))
    {
      var units := Utf16(str);
      var hash: Int32 := 0;
      var i := 0;
      while i < |units|
        invariant 0 <= i <= |units|
        invariant hash == HashValue(units[..i])
      {
        ShiftStep(hash, units[i]);
        assert units[..i + 1][..i] == units[..i];
        // hash = ((hash << 5) - hash) + str.charCodeAt(i); hash |= 0;
        hash := ToInt32(ToInt32(hash * 32) - hash + units[i]);
        i := i + 1;
      }
      assert units[..i] == units;
      hex := HashHex(hash);
    }

    /** `process(recordRaw, dir)`: the master list, or the error a duplicate throws. */
    method Process(records: seq<RawRecord>, existing: set<string>) returns (r: Result<MasterList>)
      ensures r == ProcessSpec(records, exitOnError, existing)
    {
      ghost var cs := Candidates(records, existing);
      r := ProcessLoop(records, existing, cs);
    }

    /**
     * The loop of `process`, proved against the candidates the records stand for: each pass
     * either extends the listing or stops on the first duplicate that throws.
     */
    method ProcessLoop(records: seq<RawRecord>, existing: set<string>, ghost cs: seq<Candidate>)
      returns (r: Result<MasterList>)
      requires |cs| == |records|
      requires forall k {:trigger records[k]} :: 0 <= k < |records| ==> cs[k] == CandidateOf(records[k], existing)
      ensures r == Dedup(cs, exitOnError)
    {
      var listing: MasterList := [];
      var i := 0;
      while i < |records|
        invariant 0 <= i <= |records|
        invariant Dedup(cs[..i], exitOnError) == Ok(listing)
      {
        var next := ProcessRecord(records, existing, cs, i, listing);
        if next.Err? {
          DedupErrSticky(cs, i + 1, exitOnError);
          return next;
        }
        listing := next.value;
        i := i + 1;
      }
      assert cs[..i] == cs;
      r := Ok(listing);
    }

    /** One pass of the loop in `process`: the duplicate check on the record's key, then its entry. */
    method ProcessRecord(records: seq<RawRecord>, existing: set<string>, ghost cs: seq<Candidate>, i: nat,
                         listing: MasterList)
      returns (next: Result<MasterList>)
      requires i < |records| == |cs|
      requires forall k {:trigger records[k]} :: 0 <= k < |records| ==> cs[k] == CandidateOf(records[k], existing)
      requires Dedup(cs[..i], exitOnError) == Ok(listing)
      ensures next == Dedup(cs[..i + 1], exitOnError)
    {
      var record := records[i];
      assert cs[..i + 1][..i] == cs[..i];
      assert cs[i] == CandidateOf(record, existing);
      var key := SimpleHash(HashInput(record));
      assert key == cs[i].key;
      if key in Keys(listing) {
        var o := Error(DuplicateMessage(record));
        if o.Fail? {
          return Err(o.msg);
        }
        next := Ok(listing);
      } else {
        var audioUri := AudioUri(record.filename);
        var albumImageUri := CoverUri(audioUri, existing);
        next := Ok(listing + [(key, TrackMeta(record.tags.title, record.tags.artist, record.tags.album,
                                              record.tags.date, albumImageUri, audioUri,
                                              record.duration, record.size, record.bitRate))]);
      }
    }
  }
}

/**
  The orbit parameter message (opm.go). Unlike ParseOMM, ParseOPM does not
  use the ordered decoder: it trims the text, splits it into lines, drops the
  empty ones and then runs four hand-written loops over a shared line index,
  one per section (header, metadata, state vector, osculating Keplerian
  elements). Each loop reads a line, switches on its key, and stops after a
  line that completes its section; nothing bounds the index, so a section
  whose last line never comes ends in an index-out-of-range panic.
 */
module Opm {
  import opened Wrappers
  import opened GoStrings
  import opened Kvn
  import opened Timestamps

  datatype OpmError =
    | LineError(lex: LexError)              // parseLine rejected a line
    | TimeError(key: string)                // time.Parse(time.RFC3339, ...) rejected the value of this key
    | FloatError(key: string, value: string) // strconv.ParseFloat rejected the value of this key
    | OutOfLines                            // the panic of lines[i] with i past the last line
    | BothAnomalies                         // TRUE_ANOMALY and MEAN_ANOMALY both non-zero

  datatype OpmHeader = OpmHeader(
    ccsdsOpmVers: string, comments: seq<string>, classification: string,
    creationDate: Instant, originator: string, messageId: string)

  datatype OpmMetaData = OpmMetaData(
    comments: seq<string>, objectName: string, objectId: string, centerName: string,
    refFrame: string, refFrameEpoch: Instant, timeSystem: string)

  datatype StateVector = StateVector(
    comments: seq<string>, epoch: Instant, x: real, y: real, z: real, xDot: real, yDot: real, zDot: real)

  datatype KeplerianElements = KeplerianElements(
    comments: seq<string>, semiMajorAxis: real, eccentricity: real, inclination: real, raOfAscNode: real,
    argOfPericenter: real, trueAnomaly: real, meanAnomaly: real, gm: real)

  /** The parts of an OPM that ParseOPM fills in, and Raw, the trimmed text. */
  datatype OpmMessage = OpmMessage(
    header: OpmHeader, metaData: OpmMetaData, stateVector: StateVector, kep: KeplerianElements, raw: string)

  /** Go's zero time.Time: 1 January of year 1, midnight UTC. */
  function ZeroTime(): Instant {
    Instant(1, 1, 1, 0, 0, 0, 0)
  }

  function EmptyHeader(): OpmHeader {
    OpmHeader("", [], "", ZeroTime(), "", "")
  }

  function EmptyMetaData(): OpmMetaData {
    OpmMetaData([], "", "", "", "", ZeroTime(), "")
  }

  function EmptyStateVector(): StateVector {
    StateVector([], ZeroTime(), 0.0, 0.0, 0.0, 0.0, 0.0, 0.0)
  }

  function EmptyKeplerianElements(): KeplerianElements {
    KeplerianElements([], 0.0, 0.0, 0.0, 0.0, 0.0, 0.0, 0.0, 0.0)
  }

  /* ---------------------------------------------------------------------
     The lines
     --------------------------------------------------------------------- */

  /** The lines of an OPM: the trimmed text split on the ending detected in the trimmed text, empty lines dropped. */
  function OpmLines(s: string): (r: seq<string>)
    ensures "" !in r
  {
    var raw := TrimSpace(s);
    NonEmpty(Split(raw, DetectLineEnding(raw)))
  }

  /**
    The empty-line loop: an empty line is cut out of the slice and the index
    stepped back so that the line moved into its place is examined next.
   */
  method RemoveEmptyLines(lines: seq<string>) returns (r: seq<string>)
    ensures r == NonEmpty(lines)
  {
    r := lines;
    var i: int := 0;
    while i < |r|
      invariant 0 <= i <= |r|
      invariant NonEmpty(lines) == r[..i] + NonEmpty(r[i..])
      decreases |r| - i
    {
      if r[i] == "" {
        assert NonEmpty(r[i..]) == NonEmpty(r[i + 1..]) by { assert r[i..][1..] == r[i + 1..]; }
        var shorter := r[..i] + r[i + 1..];
        assert shorter[..i] == r[..i] && shorter[i..] == r[i + 1..];
        r := shorter;
        i := i - 1;
      } else {
        assert NonEmpty(r[i..]) == [r[i]] + NonEmpty(r[i + 1..]) by { assert r[i..][1..] == r[i + 1..]; }
        assert r[..i + 1] == r[..i] + [r[i]];
      }
      i := i + 1;
    }
    assert r[..i] == r && r[i..] == [];
  }

  /* ---------------------------------------------------------------------
     Reading one value
     --------------------------------------------------------------------- */

  /** time.Parse(time.RFC3339, v) after a 'Z' is appended to a value holding none. */
  function ParseZulu(v: string): (r: Option<Instant>)
    ensures r.Some? ==> 1 <= r.value.month <= 12 && 1 <= r.value.day <= DaysIn(r.value.month, r.value.year)
  {
    ParseRFC3339(if 'Z' in v then v else v + "Z")
  }

  function ReadTime(key: string, v: string): Result<Instant, OpmError> {
    match ParseZulu(v)
    case None => Err(TimeError(key))
    case Some(t) => Ok(t)
  }

  /** parseFloat, through the float parser `pr` the model takes as a parameter. */
  function ReadReal(key: string, v: string, pr: string -> Option<real>): Result<real, OpmError> {
    match pr(v)
    case None => Err(FloatError(key, v))
    case Some(x) => Ok(x)
  }

  /** A line the loops read (a non-empty one) that parses to a token with this key. */
  predicate KeyLine(parse: string -> Result<KV, LexError>, line: string, key: string) {
    line != "" && parse(line).Ok? && parse(line).value.key == key
  }

  /** A line that parses to a token with this key and a non-empty value. */
  predicate FilledLine(parse: string -> Result<KV, LexError>, line: string, key: string) {
    KeyLine(parse, line, key) && parse(line).value.value != ""
  }

  /** The value of a line if it is a comment token; the loops skip empty lines without parsing them. */
  function CommentOf(parse: string -> Result<KV, LexError>, line: string): seq<string> {
    if KeyLine(parse, line, "COMMENT") then [parse(line).value.value] else []
  }

  /** The values of the comment tokens among the non-empty lines, in order. */
  function CommentsIn(parse: string -> Result<KV, LexError>, lines: seq<string>): seq<string> {
    if lines == [] then [] else CommentOf(parse, lines[0]) + CommentsIn(parse, lines[1..])
  }

  lemma CommentsInStep(parse: string -> Result<KV, LexError>, lines: seq<string>, i: nat, j: nat)
    requires i < j <= |lines|
    ensures CommentsIn(parse, lines[i..j]) == CommentOf(parse, lines[i]) + CommentsIn(parse, lines[i + 1..j])
  {
    assert lines[i..j][1..] == lines[i + 1..j];
  }

  /** The comments up to line `i`, then those of line `i`, then those after it, are the comments up to the end of the range. */
  lemma CommentsGlue(parse: string -> Result<KV, LexError>, lines: seq<string>, i: nat, j: nat, before: seq<string>, all: seq<string>)
    requires i < j <= |lines|
    requires all == before + CommentOf(parse, lines[i]) + CommentsIn(parse, lines[i + 1..j])
    ensures all == before + CommentsIn(parse, lines[i..j])
  {
    CommentsInStep(parse, lines, i, j);
  }

  lemma CommentsInNone(parse: string -> Result<KV, LexError>, lines: seq<string>, i: nat)
    requires i <= |lines|
    ensures CommentsIn(parse, lines[i..i]) == []
  {
    assert lines[i..i] == [];
  }

  /**
    The reading of the value of the last line among `lines` that the loops
    read with this key, or `prior` when there is no such line: a section
    loop stores a value each time its key comes round, over the one before.
   */
  function LastRead<T>(parse: string -> Result<KV, LexError>, lines: seq<string>, key: string, read: string -> Option<T>, prior: Option<T>): Option<T>
    decreases |lines|
  {
    if lines == [] then prior
    else LastRead(parse, lines[1..], key, read, if KeyLine(parse, lines[0], key) then read(parse(lines[0]).value.value) else prior)
  }

  /** A text field takes the value as it is. */
  function Text(v: string): Option<string> {
    Some(v)
  }

  lemma LastReadStep<T>(parse: string -> Result<KV, LexError>, lines: seq<string>, i: nat, j: nat, key: string, read: string -> Option<T>, prior: Option<T>)
    requires i < j <= |lines|
    ensures LastRead(parse, lines[i..j], key, read, prior)
         == LastRead(parse, lines[i + 1..j], key, read, if KeyLine(parse, lines[i], key) then read(parse(lines[i]).value.value) else prior)
  {
    assert lines[i..j][1..] == lines[i + 1..j];
  }

  lemma LastReadEmpty<T>(parse: string -> Result<KV, LexError>, lines: seq<string>, i: nat, key: string, read: string -> Option<T>, prior: Option<T>)
    requires i <= |lines|
    ensures LastRead(parse, lines[i..i], key, read, prior) == prior
  {
    assert lines[i..i] == [];
  }

  /** Without a line with the key, the prior reading stands. */
  lemma {:induction false} LastReadAbsent<T>(parse: string -> Result<KV, LexError>, lines: seq<string>, key: string, read: string -> Option<T>, prior: Option<T>)
    requires forall q :: 0 <= q < |lines| ==> !KeyLine(parse, lines[q], key)
    ensures LastRead(parse, lines, key, read, prior) == prior
    decreases |lines|
  {
    if lines != [] {
      assert !KeyLine(parse, lines[0], key);
      assert forall q :: 0 <= q < |lines| - 1 ==> lines[1..][q] == lines[q + 1];
      LastReadAbsent(parse, lines[1..], key, read, prior);
    }
  }

  /** With lines that have the key, the reading is that of the last of them, whatever came before. */
  lemma {:induction false} LastReadIsLast<T>(parse: string -> Result<KV, LexError>, lines: seq<string>, key: string, read: string -> Option<T>, prior: Option<T>, p: nat)
    requires p < |lines| && KeyLine(parse, lines[p], key)
    requires forall q :: p < q < |lines| ==> !KeyLine(parse, lines[q], key)
    ensures LastRead(parse, lines, key, read, prior) == read(parse(lines[p]).value.value)
    decreases |lines|
  {
    var next := if KeyLine(parse, lines[0], key) then read(parse(lines[0]).value.value) else prior;
    assert forall q :: 0 <= q < |lines| - 1 ==> lines[1..][q] == lines[q + 1];
    if p == 0 {
      LastReadAbsent(parse, lines[1..], key, read, next);
    } else {
      LastReadIsLast(parse, lines[1..], key, read, next, p - 1);
    }
  }

  /* ---------------------------------------------------------------------
     Header (CCSDS 502.0-B-2 table 3-1)
     --------------------------------------------------------------------- */

  /** The switch of the header loop. */
  function HeaderField(h: OpmHeader, kv: KV): Result<OpmHeader, OpmError> {
    var v := kv.value;
    if kv.key == "CCSDS_OPM_VERS" then Ok(h.(ccsdsOpmVers := v))
    else if kv.key == "COMMENT" then Ok(h.(comments := h.comments + [v]))
    else if kv.key == "CLASSIFICATION" then Ok(h.(classification := v))
    else if kv.key == "CREATION_DATE" then
      (match ReadTime(kv.key, v)
       case Err(e) => Err(e)
       case Ok(t) => Ok(h.(creationDate := t)))
    else if kv.key == "ORIGINATOR" then Ok(h.(originator := v))
    else if kv.key == "MESSAGE_ID" then Ok(h.(messageId := v))
    else Ok(h)
  }

  /** The header ends once MESSAGE_ID is set if the text mentions MESSAGE_ID anywhere, and once ORIGINATOR is set otherwise. */
  predicate HeaderDone(foundMessageId: bool, h: OpmHeader) {
    if foundMessageId then h.messageId != "" else h.originator != ""
  }

  /** The key whose non-empty value ends the header. */
  function HeaderStopKey(foundMessageId: bool): string {
    if foundMessageId then "MESSAGE_ID" else "ORIGINATOR"
  }

  /** The header loop from line `i`: the header read and the index of the first line after it. */
  function HeaderFrom(parse: string -> Result<KV, LexError>, lines: seq<string>, i: nat, found: bool, h: OpmHeader): (r: Result<(OpmHeader, nat), OpmError>)
    requires i <= |lines|
    ensures r.Ok? ==> i < r.value.1 <= |lines|
    decreases |lines| - i
  {
    if i == |lines| then Err(OutOfLines)
    else if lines[i] == "" then HeaderFrom(parse, lines, i + 1, found, h)
    else
      match parse(lines[i])
      case Err(e) => Err(LineError(e))
      case Ok(kv) =>
        match HeaderField(h, kv)
        case Err(e) => Err(e)
        case Ok(h2) => if HeaderDone(found, h2) then Ok((h2, i + 1)) else HeaderFrom(parse, lines, i + 1, found, h2)
  }

  /** One line of the header loop: the switch, then the test for the end of the header. */
  lemma HeaderFromLine(parse: string -> Result<KV, LexError>, lines: seq<string>, i: nat, found: bool, h: OpmHeader, kv: KV, h2: OpmHeader)
    requires i < |lines| && lines[i] != "" && parse(lines[i]) == Ok(kv) && HeaderField(h, kv) == Ok(h2)
    ensures HeaderFrom(parse, lines, i, found, h)
         == if HeaderDone(found, h2) then Ok((h2, i + 1)) else HeaderFrom(parse, lines, i + 1, found, h2)
  {
  }

  /**
    The header switch appends the value of a comment and nothing else to the
    comments, and changes MESSAGE_ID or ORIGINATOR only to the value of a
    token with that key.
   */
  lemma HeaderFieldFacts(h: OpmHeader, kv: KV)
    requires HeaderField(h, kv).Ok?
    ensures HeaderField(h, kv).value.comments == h.comments + (if kv.key == "COMMENT" then [kv.value] else [])
    ensures HeaderField(h, kv).value.messageId == (if kv.key == "MESSAGE_ID" then kv.value else h.messageId)
    ensures HeaderField(h, kv).value.originator == (if kv.key == "ORIGINATOR" then kv.value else h.originator)
  {
  }

  /**
    A header that was not yet complete ends on a line carrying the stop key
    with a non-empty value, which is the value the header keeps.
   */
  lemma {:induction false} HeaderStops(parse: string -> Result<KV, LexError>, lines: seq<string>, i: nat, found: bool, h: OpmHeader, r: (OpmHeader, nat))
    requires i <= |lines| && HeaderFrom(parse, lines, i, found, h) == Ok(r) && !HeaderDone(found, h)
    ensures i < r.1 <= |lines| && FilledLine(parse, lines[r.1 - 1], HeaderStopKey(found)) &&
      parse(lines[r.1 - 1]).value.value == (if found then r.0.messageId else r.0.originator)
    decreases |lines| - i
  {
    if lines[i] == "" {
      HeaderStops(parse, lines, i + 1, found, h, r);
    } else {
      var kv := parse(lines[i]).value;
      var next := HeaderField(h, kv).value;
      HeaderFromLine(parse, lines, i, found, h, kv, next);
      HeaderFieldFacts(h, kv);
      if !HeaderDone(found, next) {
        HeaderStops(parse, lines, i + 1, found, next, r);
      }
    }
  }

  /** The comments of the header are those of the lines the header loop read, in order. */
  lemma {:induction false} HeaderComments(parse: string -> Result<KV, LexError>, lines: seq<string>, i: nat, found: bool, h: OpmHeader, r: (OpmHeader, nat))
    requires i <= |lines| && HeaderFrom(parse, lines, i, found, h) == Ok(r)
    ensures i < r.1 <= |lines| && r.0.comments == h.comments + CommentsIn(parse, lines[i..r.1])
    decreases |lines| - i
  {
    if lines[i] == "" {
      HeaderComments(parse, lines, i + 1, found, h, r);
    } else {
      var kv := parse(lines[i]).value;
      var next := HeaderField(h, kv).value;
      HeaderFromLine(parse, lines, i, found, h, kv, next);
      HeaderFieldFacts(h, kv);
      if !HeaderDone(found, next) {
        HeaderComments(parse, lines, i + 1, found, next, r);
      }
    }
    if r.1 == i + 1 {
      CommentsInNone(parse, lines, i + 1);
    }
    CommentsGlue(parse, lines, i, r.1, h.comments, r.0.comments);
  }

  /** Without a line carrying the stop key with a value, the header loop runs off the end of the lines or fails before. */
  lemma {:induction false} HeaderNeedsStop(parse: string -> Result<KV, LexError>, lines: seq<string>, i: nat, found: bool, h: OpmHeader)
    requires i <= |lines| && !HeaderDone(found, h)
    requires forall p :: i <= p < |lines| ==> !FilledLine(parse, lines[p], HeaderStopKey(found))
    ensures HeaderFrom(parse, lines, i, found, h).Err?
    decreases |lines| - i
  {
    if i < |lines| && lines[i] == "" {
      HeaderNeedsStop(parse, lines, i + 1, found, h);
    } else if i < |lines| && parse(lines[i]).Ok? && HeaderField(h, parse(lines[i]).value).Ok? {
      HeaderNeedsStop(parse, lines, i + 1, found, HeaderField(h, parse(lines[i]).value).value);
    }
  }

  /** The header keys whose value the switch stores as it is. */
  predicate HeaderTextKey(k: string) {
    k == "CCSDS_OPM_VERS" || k == "CLASSIFICATION" || k == "ORIGINATOR" || k == "MESSAGE_ID"
  }

  /** The header field a text key is stored in. */
  function HeaderText(h: OpmHeader, k: string): string
    requires HeaderTextKey(k)
  {
    if k == "CCSDS_OPM_VERS" then h.ccsdsOpmVers
    else if k == "CLASSIFICATION" then h.classification
    else if k == "ORIGINATOR" then h.originator
    else h.messageId
  }

  /**
    The header switch stores the value of a text key in that key's field and
    the parsed CREATION_DATE in the creation date; a token with a key the
    switch does not name leaves the header as it was.
   */
  lemma HeaderFieldSets(h: OpmHeader, kv: KV, k: string)
    requires HeaderField(h, kv).Ok? && HeaderTextKey(k)
    ensures HeaderText(HeaderField(h, kv).value, k) == if kv.key == k then kv.value else HeaderText(h, k)
    ensures Some(HeaderField(h, kv).value.creationDate) == if kv.key == "CREATION_DATE" then ParseZulu(kv.value) else Some(h.creationDate)
    ensures !HeaderTextKey(kv.key) && kv.key != "COMMENT" && kv.key != "CREATION_DATE" ==> HeaderField(h, kv) == Ok(h)
  {
  }

  /**
    Each text field of the header holds the value of the last line with its
    key that the header loop read, and the creation date the parsed value of
    the last CREATION_DATE line; a field whose key was not read keeps what it
    held.
   */
  lemma {:induction false} HeaderLast(parse: string -> Result<KV, LexError>, lines: seq<string>, i: nat, found: bool, h: OpmHeader, r: (OpmHeader, nat), k: string)
    requires i <= |lines| && HeaderFrom(parse, lines, i, found, h) == Ok(r) && HeaderTextKey(k)
    ensures i < r.1 <= |lines|
    ensures Some(HeaderText(r.0, k)) == LastRead(parse, lines[i..r.1], k, Text, Some(HeaderText(h, k)))
    ensures Some(r.0.creationDate) == LastRead(parse, lines[i..r.1], "CREATION_DATE", ParseZulu, Some(h.creationDate))
    decreases |lines| - i
  {
    if lines[i] == "" {
      HeaderLast(parse, lines, i + 1, found, h, r, k);
    } else {
      var kv := parse(lines[i]).value;
      var next := HeaderField(h, kv).value;
      HeaderFromLine(parse, lines, i, found, h, kv, next);
      HeaderFieldSets(h, kv, k);
      if HeaderDone(found, next) {
        LastReadEmpty(parse, lines, i + 1, k, Text, Some(HeaderText(next, k)));
        LastReadEmpty(parse, lines, i + 1, "CREATION_DATE", ParseZulu, Some(next.creationDate));
      } else {
        HeaderLast(parse, lines, i + 1, found, next, r, k);
      }
    }
    LastReadStep(parse, lines, i, r.1, k, Text, Some(HeaderText(h, k)));
    LastReadStep(parse, lines, i, r.1, "CREATION_DATE", ParseZulu, Some(h.creationDate));
  }

  /* ---------------------------------------------------------------------
     Metadata (table 3-2)
     --------------------------------------------------------------------- */

  /** The switch of the metadata loop. */
  function MetaDataField(m: OpmMetaData, kv: KV): Result<OpmMetaData, OpmError> {
    var v := kv.value;
    if kv.key == "COMMENT" then Ok(m.(comments := m.comments + [v]))
    else if kv.key == "OBJECT_NAME" then Ok(m.(objectName := v))
    else if kv.key == "OBJECT_ID" then Ok(m.(objectId := v))
    else if kv.key == "CENTER_NAME" then Ok(m.(centerName := v))
    else if kv.key == "REF_FRAME" then Ok(m.(refFrame := v))
    else if kv.key == "REF_FRAME_EPOCH" then
      (match ReadTime(kv.key, v)
       case Err(e) => Err(e)
       case Ok(t) => Ok(m.(refFrameEpoch := t)))
    else if kv.key == "TIME_SYSTEM" then Ok(m.(timeSystem := v))
    else Ok(m)
  }

  /** The metadata loop from line `i`; it ends once TIME_SYSTEM is set. */
  function MetaDataFrom(parse: string -> Result<KV, LexError>, lines: seq<string>, i: nat, m: OpmMetaData): (r: Result<(OpmMetaData, nat), OpmError>)
    requires i <= |lines|
    ensures r.Ok? ==> i < r.value.1 <= |lines|
    decreases |lines| - i
  {
    if i == |lines| then Err(OutOfLines)
    else if lines[i] == "" then MetaDataFrom(parse, lines, i + 1, m)
    else
      match parse(lines[i])
      case Err(e) => Err(LineError(e))
      case Ok(kv) =>
        match MetaDataField(m, kv)
        case Err(e) => Err(e)
        case Ok(m2) => if m2.timeSystem != "" then Ok((m2, i + 1)) else MetaDataFrom(parse, lines, i + 1, m2)
  }

  /** One line of the metadata loop: the switch, then the test for TIME_SYSTEM. */
  lemma MetaDataFromLine(parse: string -> Result<KV, LexError>, lines: seq<string>, i: nat, m: OpmMetaData, kv: KV, m2: OpmMetaData)
    requires i < |lines| && lines[i] != "" && parse(lines[i]) == Ok(kv) && MetaDataField(m, kv) == Ok(m2)
    ensures MetaDataFrom(parse, lines, i, m)
         == if m2.timeSystem != "" then Ok((m2, i + 1)) else MetaDataFrom(parse, lines, i + 1, m2)
  {
  }

  /** The metadata switch appends the value of a comment and nothing else, and sets TIME_SYSTEM only from its own token. */
  lemma MetaDataFieldFacts(m: OpmMetaData, kv: KV)
    requires MetaDataField(m, kv).Ok?
    ensures MetaDataField(m, kv).value.comments == m.comments + (if kv.key == "COMMENT" then [kv.value] else [])
    ensures MetaDataField(m, kv).value.timeSystem == (if kv.key == "TIME_SYSTEM" then kv.value else m.timeSystem)
  {
  }

  /** The metadata ends on the first TIME_SYSTEM line with a value, which it keeps. */
  lemma {:induction false} MetaDataStops(parse: string -> Result<KV, LexError>, lines: seq<string>, i: nat, m: OpmMetaData, r: (OpmMetaData, nat))
    requires i <= |lines| && MetaDataFrom(parse, lines, i, m) == Ok(r) && m.timeSystem == ""
    ensures i < r.1 <= |lines| && FilledLine(parse, lines[r.1 - 1], "TIME_SYSTEM") && parse(lines[r.1 - 1]).value.value == r.0.timeSystem
    decreases |lines| - i
  {
    if lines[i] == "" {
      MetaDataStops(parse, lines, i + 1, m, r);
    } else {
      var kv := parse(lines[i]).value;
      var next := MetaDataField(m, kv).value;
      MetaDataFromLine(parse, lines, i, m, kv, next);
      MetaDataFieldFacts(m, kv);
      if next.timeSystem == "" {
        MetaDataStops(parse, lines, i + 1, next, r);
      }
    }
  }

  /** The comments of the metadata are those of the lines its loop read, in order. */
  lemma {:induction false} MetaDataComments(parse: string -> Result<KV, LexError>, lines: seq<string>, i: nat, m: OpmMetaData, r: (OpmMetaData, nat))
    requires i <= |lines| && MetaDataFrom(parse, lines, i, m) == Ok(r)
    ensures i < r.1 <= |lines| && r.0.comments == m.comments + CommentsIn(parse, lines[i..r.1])
    decreases |lines| - i
  {
    if lines[i] == "" {
      MetaDataComments(parse, lines, i + 1, m, r);
    } else {
      var kv := parse(lines[i]).value;
      var next := MetaDataField(m, kv).value;
      MetaDataFromLine(parse, lines, i, m, kv, next);
      MetaDataFieldFacts(m, kv);
      if next.timeSystem == "" {
        MetaDataComments(parse, lines, i + 1, next, r);
      }
    }
    if r.1 == i + 1 {
      CommentsInNone(parse, lines, i + 1);
    }
    CommentsGlue(parse, lines, i, r.1, m.comments, r.0.comments);
  }

  /** Without a TIME_SYSTEM line with a value, the metadata loop fails. */
  lemma {:induction false} MetaDataNeedsStop(parse: string -> Result<KV, LexError>, lines: seq<string>, i: nat, m: OpmMetaData)
    requires i <= |lines| && m.timeSystem == ""
    requires forall p :: i <= p < |lines| ==> !FilledLine(parse, lines[p], "TIME_SYSTEM")
    ensures MetaDataFrom(parse, lines, i, m).Err?
    decreases |lines| - i
  {
    if i < |lines| && lines[i] == "" {
      MetaDataNeedsStop(parse, lines, i + 1, m);
    } else if i < |lines| && parse(lines[i]).Ok? && MetaDataField(m, parse(lines[i]).value).Ok? {
      MetaDataNeedsStop(parse, lines, i + 1, MetaDataField(m, parse(lines[i]).value).value);
    }
  }

  /** The metadata keys whose value the switch stores as it is. */
  predicate MetaDataTextKey(k: string) {
    k == "OBJECT_NAME" || k == "OBJECT_ID" || k == "CENTER_NAME" || k == "REF_FRAME" || k == "TIME_SYSTEM"
  }

  /** The metadata field a text key is stored in. */
  function MetaDataText(m: OpmMetaData, k: string): string
    requires MetaDataTextKey(k)
  {
    if k == "OBJECT_NAME" then m.objectName
    else if k == "OBJECT_ID" then m.objectId
    else if k == "CENTER_NAME" then m.centerName
    else if k == "REF_FRAME" then m.refFrame
    else m.timeSystem
  }

  /**
    The metadata switch stores the value of a text key in that key's field
    and the parsed REF_FRAME_EPOCH in the frame epoch; a token with a key the
    switch does not name leaves the metadata as it was.
   */
  lemma MetaDataFieldSets(m: OpmMetaData, kv: KV, k: string)
    requires MetaDataField(m, kv).Ok? && MetaDataTextKey(k)
    ensures MetaDataText(MetaDataField(m, kv).value, k) == if kv.key == k then kv.value else MetaDataText(m, k)
    ensures Some(MetaDataField(m, kv).value.refFrameEpoch) == if kv.key == "REF_FRAME_EPOCH" then ParseZulu(kv.value) else Some(m.refFrameEpoch)
    ensures !MetaDataTextKey(kv.key) && kv.key != "COMMENT" && kv.key != "REF_FRAME_EPOCH" ==> MetaDataField(m, kv) == Ok(m)
  {
  }

  /**
    Each text field of the metadata holds the value of the last line with its
    key that the metadata loop read, and the frame epoch the parsed value of
    the last REF_FRAME_EPOCH line; a field whose key was not read keeps what
    it held.
   */
  lemma {:induction false} MetaDataLast(parse: string -> Result<KV, LexError>, lines: seq<string>, i: nat, m: OpmMetaData, r: (OpmMetaData, nat), k: string)
    requires i <= |lines| && MetaDataFrom(parse, lines, i, m) == Ok(r) && MetaDataTextKey(k)
    ensures i < r.1 <= |lines|
    ensures Some(MetaDataText(r.0, k)) == LastRead(parse, lines[i..r.1], k, Text, Some(MetaDataText(m, k)))
    ensures Some(r.0.refFrameEpoch) == LastRead(parse, lines[i..r.1], "REF_FRAME_EPOCH", ParseZulu, Some(m.refFrameEpoch))
    decreases |lines| - i
  {
    if lines[i] == "" {
      MetaDataLast(parse, lines, i + 1, m, r, k);
    } else {
      var kv := parse(lines[i]).value;
      var next := MetaDataField(m, kv).value;
      MetaDataFromLine(parse, lines, i, m, kv, next);
      MetaDataFieldSets(m, kv, k);
      if next.timeSystem != "" {
        LastReadEmpty(parse, lines, i + 1, k, Text, Some(MetaDataText(next, k)));
        LastReadEmpty(parse, lines, i + 1, "REF_FRAME_EPOCH", ParseZulu, Some(next.refFrameEpoch));
      } else {
        MetaDataLast(parse, lines, i + 1, next, r, k);
      }
    }
    LastReadStep(parse, lines, i, r.1, k, Text, Some(MetaDataText(m, k)));
    LastReadStep(parse, lines, i, r.1, "REF_FRAME_EPOCH", ParseZulu, Some(m.refFrameEpoch));
  }

  /* ---------------------------------------------------------------------
     State vector (table 3-3)
     --------------------------------------------------------------------- */

  /** The switch of the state-vector loop. */
  function StateVectorField(sv: StateVector, kv: KV, pr: string -> Option<real>): Result<StateVector, OpmError> {
    var (k, v) := (kv.key, kv.value);
    if k == "COMMENT" then Ok(sv.(comments := sv.comments + [v]))
    else if k == "EPOCH" then
      (match ReadTime(k, v)
       case Err(e) => Err(e)
       case Ok(t) => Ok(sv.(epoch := t)))
    else if k == "X" || k == "Y" || k == "Z" || k == "X_DOT" || k == "Y_DOT" || k == "Z_DOT" then
      (match ReadReal(k, v, pr)
       case Err(e) => Err(e)
       case Ok(x) =>
         Ok(if k == "X" then sv.(x := x) else if k == "Y" then sv.(y := x) else if k == "Z" then sv.(z := x)
            else if k == "X_DOT" then sv.(xDot := x) else if k == "Y_DOT" then sv.(yDot := x) else sv.(zDot := x)))
    else Ok(sv)
  }

  /** The state-vector loop from line `i`; it ends after a Z_DOT line. */
  function StateVectorFrom(parse: string -> Result<KV, LexError>, lines: seq<string>, i: nat, sv: StateVector, pr: string -> Option<real>)
    : (r: Result<(StateVector, nat), OpmError>)
    requires i <= |lines|
    ensures r.Ok? ==> i < r.value.1 <= |lines|
    decreases |lines| - i
  {
    if i == |lines| then Err(OutOfLines)
    else if lines[i] == "" then StateVectorFrom(parse, lines, i + 1, sv, pr)
    else
      match parse(lines[i])
      case Err(e) => Err(LineError(e))
      case Ok(kv) =>
        match StateVectorField(sv, kv, pr)
        case Err(e) => Err(e)
        case Ok(sv2) => if kv.key == "Z_DOT" then Ok((sv2, i + 1)) else StateVectorFrom(parse, lines, i + 1, sv2, pr)
  }

  lemma StateVectorFieldFacts(sv: StateVector, kv: KV, pr: string -> Option<real>)
    requires StateVectorField(sv, kv, pr).Ok?
    ensures StateVectorField(sv, kv, pr).value.comments == sv.comments + (if kv.key == "COMMENT" then [kv.value] else [])
    ensures kv.key == "Z_DOT" ==> pr(kv.value) == Some(StateVectorField(sv, kv, pr).value.zDot)
  {
  }

  /** The state vector ends on the first Z_DOT line, whose value it keeps. */
  lemma {:induction false} StateVectorStops(parse: string -> Result<KV, LexError>, lines: seq<string>, i: nat, sv: StateVector, pr: string -> Option<real>, r: (StateVector, nat))
    requires i <= |lines| && StateVectorFrom(parse, lines, i, sv, pr) == Ok(r)
    ensures i < r.1 <= |lines| && KeyLine(parse, lines[r.1 - 1], "Z_DOT") && pr(parse(lines[r.1 - 1]).value.value) == Some(r.0.zDot) &&
      forall p :: i <= p < r.1 - 1 ==> !KeyLine(parse, lines[p], "Z_DOT")
    decreases |lines| - i
  {
    if lines[i] == "" {
      StateVectorStops(parse, lines, i + 1, sv, pr, r);
    } else {
      var kv := parse(lines[i]).value;
      StateVectorFieldFacts(sv, kv, pr);
      if kv.key != "Z_DOT" {
        StateVectorStops(parse, lines, i + 1, StateVectorField(sv, kv, pr).value, pr, r);
      }
    }
  }

  /** The comments of the state vector are those of the lines it read, in order. */
  lemma {:induction false} StateVectorComments(parse: string -> Result<KV, LexError>, lines: seq<string>, i: nat, sv: StateVector, pr: string -> Option<real>, r: (StateVector, nat))
    requires i <= |lines| && StateVectorFrom(parse, lines, i, sv, pr) == Ok(r)
    ensures i < r.1 <= |lines| && r.0.comments == sv.comments + CommentsIn(parse, lines[i..r.1])
    decreases |lines| - i
  {
    if lines[i] == "" {
      StateVectorComments(parse, lines, i + 1, sv, pr, r);
    } else {
      var kv := parse(lines[i]).value;
      StateVectorFieldFacts(sv, kv, pr);
      if kv.key != "Z_DOT" {
        StateVectorComments(parse, lines, i + 1, StateVectorField(sv, kv, pr).value, pr, r);
      }
    }
    if r.1 == i + 1 {
      CommentsInNone(parse, lines, i + 1);
    }
    CommentsGlue(parse, lines, i, r.1, sv.comments, r.0.comments);
  }

  /** Without a Z_DOT line, the state-vector loop fails. */
  lemma {:induction false} StateVectorNeedsStop(parse: string -> Result<KV, LexError>, lines: seq<string>, i: nat, sv: StateVector, pr: string -> Option<real>)
    requires i <= |lines|
    requires forall p :: i <= p < |lines| ==> !KeyLine(parse, lines[p], "Z_DOT")
    ensures StateVectorFrom(parse, lines, i, sv, pr).Err?
    decreases |lines| - i
  {
    if i < |lines| && lines[i] == "" {
      StateVectorNeedsStop(parse, lines, i + 1, sv, pr);
    } else if i < |lines| && parse(lines[i]).Ok? && StateVectorField(sv, parse(lines[i]).value, pr).Ok? {
      StateVectorNeedsStop(parse, lines, i + 1, StateVectorField(sv, parse(lines[i]).value, pr).value, pr);
    }
  }

  /** The state-vector keys whose value the switch parses as a float. */
  predicate StateVectorRealKey(k: string) {
    k == "X" || k == "Y" || k == "Z" || k == "X_DOT" || k == "Y_DOT" || k == "Z_DOT"
  }

  /** The state-vector component a float key is stored in. */
  function StateVectorReal(sv: StateVector, k: string): real
    requires StateVectorRealKey(k)
  {
    if k == "X" then sv.x else if k == "Y" then sv.y else if k == "Z" then sv.z
    else if k == "X_DOT" then sv.xDot else if k == "Y_DOT" then sv.yDot else sv.zDot
  }

  /**
    The state-vector switch stores the parsed value of a float key in that
    key's component and the parsed EPOCH in the epoch; a token with a key the
    switch does not name leaves the state vector as it was.
   */
  lemma StateVectorFieldSets(sv: StateVector, kv: KV, pr: string -> Option<real>, k: string)
    requires StateVectorField(sv, kv, pr).Ok? && StateVectorRealKey(k)
    ensures Some(StateVectorReal(StateVectorField(sv, kv, pr).value, k)) == if kv.key == k then pr(kv.value) else Some(StateVectorReal(sv, k))
    ensures Some(StateVectorField(sv, kv, pr).value.epoch) == if kv.key == "EPOCH" then ParseZulu(kv.value) else Some(sv.epoch)
    ensures !StateVectorRealKey(kv.key) && kv.key != "COMMENT" && kv.key != "EPOCH" ==> StateVectorField(sv, kv, pr) == Ok(sv)
  {
  }

  /**
    Each component of the state vector holds the parsed value of the last
    line with its key that the state-vector loop read, and the epoch that of
    the last EPOCH line; a field whose key was not read keeps what it held.
   */
  lemma {:induction false} StateVectorLast(parse: string -> Result<KV, LexError>, lines: seq<string>, i: nat, sv: StateVector, pr: string -> Option<real>, r: (StateVector, nat), k: string)
    requires i <= |lines| && StateVectorFrom(parse, lines, i, sv, pr) == Ok(r) && StateVectorRealKey(k)
    ensures i < r.1 <= |lines|
    ensures Some(StateVectorReal(r.0, k)) == LastRead(parse, lines[i..r.1], k, pr, Some(StateVectorReal(sv, k)))
    ensures Some(r.0.epoch) == LastRead(parse, lines[i..r.1], "EPOCH", ParseZulu, Some(sv.epoch))
    decreases |lines| - i
  {
    if lines[i] == "" {
      StateVectorLast(parse, lines, i + 1, sv, pr, r, k);
    } else {
      var kv := parse(lines[i]).value;
      var next := StateVectorField(sv, kv, pr).value;
      StateVectorFieldSets(sv, kv, pr, k);
      if kv.key == "Z_DOT" {
        LastReadEmpty(parse, lines, i + 1, k, pr, Some(StateVectorReal(next, k)));
        LastReadEmpty(parse, lines, i + 1, "EPOCH", ParseZulu, Some(next.epoch));
      } else {
        StateVectorLast(parse, lines, i + 1, next, pr, r, k);
      }
    }
    LastReadStep(parse, lines, i, r.1, k, pr, Some(StateVectorReal(sv, k)));
    LastReadStep(parse, lines, i, r.1, "EPOCH", ParseZulu, Some(sv.epoch));
  }

  /* ---------------------------------------------------------------------
     Osculating Keplerian elements (table 3-3)
     --------------------------------------------------------------------- */

  /** The switch of the Keplerian-elements loop. */
  function KeplerianField(kep: KeplerianElements, kv: KV, pr: string -> Option<real>): Result<KeplerianElements, OpmError> {
    var (k, v) := (kv.key, kv.value);
    if k == "COMMENT" then Ok(kep.(comments := kep.comments + [v]))
    else if k == "SEMI_MAJOR_AXIS" || k == "ECCENTRICITY" || k == "INCLINATION" || k == "RA_OF_ASC_NODE"
         || k == "ARG_OF_PERICENTER" || k == "TRUE_ANOMALY" || k == "MEAN_ANOMALY" || k == "GM" then
      (match ReadReal(k, v, pr)
       case Err(e) => Err(e)
       case Ok(x) =>
         Ok(if k == "SEMI_MAJOR_AXIS" then kep.(semiMajorAxis := x)
            else if k == "ECCENTRICITY" then kep.(eccentricity := x)
            else if k == "INCLINATION" then kep.(inclination := x)
            else if k == "RA_OF_ASC_NODE" then kep.(raOfAscNode := x)
            else if k == "ARG_OF_PERICENTER" then kep.(argOfPericenter := x)
            else if k == "TRUE_ANOMALY" then kep.(trueAnomaly := x)
            else if k == "MEAN_ANOMALY" then kep.(meanAnomaly := x)
            else kep.(gm := x)))
    else Ok(kep)
  }

  /** The Keplerian-elements loop from line `i`; it ends after a GM line. */
  function KeplerianFrom(parse: string -> Result<KV, LexError>, lines: seq<string>, i: nat, kep: KeplerianElements, pr: string -> Option<real>)
    : (r: Result<(KeplerianElements, nat), OpmError>)
    requires i <= |lines|
    ensures r.Ok? ==> i < r.value.1 <= |lines|
    decreases |lines| - i
  {
    if i == |lines| then Err(OutOfLines)
    else if lines[i] == "" then KeplerianFrom(parse, lines, i + 1, kep, pr)
    else
      match parse(lines[i])
      case Err(e) => Err(LineError(e))
      case Ok(kv) =>
        match KeplerianField(kep, kv, pr)
        case Err(e) => Err(e)
        case Ok(kep2) => if kv.key == "GM" then Ok((kep2, i + 1)) else KeplerianFrom(parse, lines, i + 1, kep2, pr)
  }

  /** One line of the Keplerian-elements loop: the switch, then the test for GM. */
  lemma KeplerianFromLine(parse: string -> Result<KV, LexError>, lines: seq<string>, i: nat, kep: KeplerianElements, pr: string -> Option<real>, kv: KV, kep2: KeplerianElements)
    requires i < |lines| && lines[i] != "" && parse(lines[i]) == Ok(kv) && KeplerianField(kep, kv, pr) == Ok(kep2)
    ensures KeplerianFrom(parse, lines, i, kep, pr)
         == if kv.key == "GM" then Ok((kep2, i + 1)) else KeplerianFrom(parse, lines, i + 1, kep2, pr)
  {
  }

  /** The Keplerian switch appends the value of a comment and nothing else, and reads GM from a GM token. */
  lemma KeplerianFieldFacts(kep: KeplerianElements, kv: KV, pr: string -> Option<real>)
    requires KeplerianField(kep, kv, pr).Ok?
    ensures KeplerianField(kep, kv, pr).value.comments == kep.comments + (if kv.key == "COMMENT" then [kv.value] else [])
    ensures kv.key == "GM" ==> pr(kv.value) == Some(KeplerianField(kep, kv, pr).value.gm)
  {
  }

  /** The Keplerian elements end on the first GM line, whose value they keep. */
  lemma {:induction false} KeplerianStops(parse: string -> Result<KV, LexError>, lines: seq<string>, i: nat, kep: KeplerianElements, pr: string -> Option<real>, r: (KeplerianElements, nat))
    requires i <= |lines| && KeplerianFrom(parse, lines, i, kep, pr) == Ok(r)
    ensures i < r.1 <= |lines| && KeyLine(parse, lines[r.1 - 1], "GM") && pr(parse(lines[r.1 - 1]).value.value) == Some(r.0.gm) &&
      (forall p :: i <= p < r.1 - 1 ==> !KeyLine(parse, lines[p], "GM"))
    decreases |lines| - i
  {
    if lines[i] == "" {
      KeplerianStops(parse, lines, i + 1, kep, pr, r);
    } else {
      var kv := parse(lines[i]).value;
      var next := KeplerianField(kep, kv, pr).value;
      KeplerianFromLine(parse, lines, i, kep, pr, kv, next);
      KeplerianFieldFacts(kep, kv, pr);
      if kv.key != "GM" {
        KeplerianStops(parse, lines, i + 1, next, pr, r);
      }
    }
  }

  /** The comments of the Keplerian elements are those of the lines their loop read, in order. */
  lemma {:induction false} KeplerianComments(parse: string -> Result<KV, LexError>, lines: seq<string>, i: nat, kep: KeplerianElements, pr: string -> Option<real>, r: (KeplerianElements, nat))
    requires i <= |lines| && KeplerianFrom(parse, lines, i, kep, pr) == Ok(r)
    ensures i < r.1 <= |lines| && r.0.comments == kep.comments + CommentsIn(parse, lines[i..r.1])
    decreases |lines| - i
  {
    if lines[i] == "" {
      KeplerianComments(parse, lines, i + 1, kep, pr, r);
    } else {
      var kv := parse(lines[i]).value;
      var next := KeplerianField(kep, kv, pr).value;
      KeplerianFromLine(parse, lines, i, kep, pr, kv, next);
      KeplerianFieldFacts(kep, kv, pr);
      if kv.key != "GM" {
        KeplerianComments(parse, lines, i + 1, next, pr, r);
      }
    }
    if r.1 == i + 1 {
      CommentsInNone(parse, lines, i + 1);
    }
    CommentsGlue(parse, lines, i, r.1, kep.comments, r.0.comments);
  }

  /** Without a GM line, the Keplerian-elements loop fails. */
  lemma {:induction false} KeplerianNeedsStop(parse: string -> Result<KV, LexError>, lines: seq<string>, i: nat, kep: KeplerianElements, pr: string -> Option<real>)
    requires i <= |lines|
    requires forall p :: i <= p < |lines| ==> !KeyLine(parse, lines[p], "GM")
    ensures KeplerianFrom(parse, lines, i, kep, pr).Err?
    decreases |lines| - i
  {
    if i < |lines| && lines[i] == "" {
      KeplerianNeedsStop(parse, lines, i + 1, kep, pr);
    } else if i < |lines| && parse(lines[i]).Ok? && KeplerianField(kep, parse(lines[i]).value, pr).Ok? {
      KeplerianNeedsStop(parse, lines, i + 1, KeplerianField(kep, parse(lines[i]).value, pr).value, pr);
    }
  }

  /** The Keplerian keys whose value the switch parses as a float. */
  predicate KeplerianRealKey(k: string) {
    k == "SEMI_MAJOR_AXIS" || k == "ECCENTRICITY" || k == "INCLINATION" || k == "RA_OF_ASC_NODE"
    || k == "ARG_OF_PERICENTER" || k == "TRUE_ANOMALY" || k == "MEAN_ANOMALY" || k == "GM"
  }

  /** The element a float key is stored in. */
  function KeplerianReal(kep: KeplerianElements, k: string): real
    requires KeplerianRealKey(k)
  {
    if k == "SEMI_MAJOR_AXIS" then kep.semiMajorAxis
    else if k == "ECCENTRICITY" then kep.eccentricity
    else if k == "INCLINATION" then kep.inclination
    else if k == "RA_OF_ASC_NODE" then kep.raOfAscNode
    else if k == "ARG_OF_PERICENTER" then kep.argOfPericenter
    else if k == "TRUE_ANOMALY" then kep.trueAnomaly
    else if k == "MEAN_ANOMALY" then kep.meanAnomaly
    else kep.gm
  }

  /**
    The Keplerian switch stores the parsed value of a float key in that key's
    element; a token with a key the switch does not name leaves the elements
    as they were.
   */
  lemma KeplerianFieldSets(kep: KeplerianElements, kv: KV, pr: string -> Option<real>, k: string)
    requires KeplerianField(kep, kv, pr).Ok? && KeplerianRealKey(k)
    ensures Some(KeplerianReal(KeplerianField(kep, kv, pr).value, k)) == if kv.key == k then pr(kv.value) else Some(KeplerianReal(kep, k))
    ensures !KeplerianRealKey(kv.key) && kv.key != "COMMENT" ==> KeplerianField(kep, kv, pr) == Ok(kep)
  {
  }

  /**
    Each element holds the parsed value of the last line with its key that
    the Keplerian-elements loop read; an element whose key was not read keeps
    what it held.
   */
  lemma {:induction false} KeplerianLast(parse: string -> Result<KV, LexError>, lines: seq<string>, i: nat, kep: KeplerianElements, pr: string -> Option<real>, r: (KeplerianElements, nat), k: string)
    requires i <= |lines| && KeplerianFrom(parse, lines, i, kep, pr) == Ok(r) && KeplerianRealKey(k)
    ensures i < r.1 <= |lines|
    ensures Some(KeplerianReal(r.0, k)) == LastRead(parse, lines[i..r.1], k, pr, Some(KeplerianReal(kep, k)))
    decreases |lines| - i
  {
    if lines[i] == "" {
      KeplerianLast(parse, lines, i + 1, kep, pr, r, k);
    } else {
      var kv := parse(lines[i]).value;
      var next := KeplerianField(kep, kv, pr).value;
      KeplerianFromLine(parse, lines, i, kep, pr, kv, next);
      KeplerianFieldSets(kep, kv, pr, k);
      if kv.key == "GM" {
        LastReadEmpty(parse, lines, i + 1, k, pr, Some(KeplerianReal(next, k)));
      } else {
        KeplerianLast(parse, lines, i + 1, next, pr, r, k);
      }
    }
    LastReadStep(parse, lines, i, r.1, k, pr, Some(KeplerianReal(kep, k)));
  }

  /* ---------------------------------------------------------------------
     ParseOPM
     --------------------------------------------------------------------- */

  /** The Keplerian section is read only when the text mentions SEMI_MAJOR_AXIS anywhere. */
  function KeplerianSection(raw: string, lines: seq<string>, i: nat, pr: string -> Option<real>): Result<KeplerianElements, OpmError>
    requires i <= |lines|
  {
    if !Contains(raw, "SEMI_MAJOR_AXIS") then Ok(EmptyKeplerianElements())
    else
      match KeplerianFrom(ParseLine, lines, i, EmptyKeplerianElements(), pr)
      case Err(e) => Err(e)
      case Ok((kep, _)) =>
        if kep.meanAnomaly != 0.0 && kep.trueAnomaly != 0.0 then Err(BothAnomalies) else Ok(kep)
  }

  /** ParseOPM as a function of the message text and the float parser. */
  function OpmParse(s: string, pr: string -> Option<real>): Result<OpmMessage, OpmError> {
    var raw := TrimSpace(s);
    var lines := OpmLines(s);
    var header :- HeaderFrom(ParseLine, lines, 0, Contains(raw, "MESSAGE_ID"), EmptyHeader());
    var meta :- MetaDataFrom(ParseLine, lines, header.1, EmptyMetaData());
    var state :- StateVectorFrom(ParseLine, lines, meta.1, EmptyStateVector(), pr);
    var kep :- KeplerianSection(raw, lines, state.1, pr);
    Ok(OpmMessage(header.0, meta.0, state.0, kep, raw))
  }

  /**
    The Keplerian section: empty when the text never mentions SEMI_MAJOR_AXIS;
    otherwise the elements of its loop, refused when both anomalies are non-zero.
   */
  lemma KeplerianSectionRule(raw: string, lines: seq<string>, i: nat, pr: string -> Option<real>)
    requires i <= |lines|
    ensures !Contains(raw, "SEMI_MAJOR_AXIS") ==> KeplerianSection(raw, lines, i, pr) == Ok(EmptyKeplerianElements())
    ensures Contains(raw, "SEMI_MAJOR_AXIS") && KeplerianFrom(ParseLine, lines, i, EmptyKeplerianElements(), pr).Ok? ==>
      var kep := KeplerianFrom(ParseLine, lines, i, EmptyKeplerianElements(), pr).value.0;
      KeplerianSection(raw, lines, i, pr) == if kep.meanAnomaly != 0.0 && kep.trueAnomaly != 0.0 then Err(BothAnomalies) else Ok(kep)
    ensures KeplerianSection(raw, lines, i, pr).Ok? ==>
      KeplerianSection(raw, lines, i, pr).value.meanAnomaly == 0.0 || KeplerianSection(raw, lines, i, pr).value.trueAnomaly == 0.0
  {
  }

  /**
    What an accepted OPM carries: Raw is the trimmed text, the header holds
    its stop key (MESSAGE_ID or ORIGINATOR) with a value, the metadata a
    TIME_SYSTEM, at most one anomaly is non-zero, and the Keplerian elements
    are empty unless the text mentions SEMI_MAJOR_AXIS.
   */
  lemma OpmAccepted(s: string, pr: string -> Option<real>)
    requires OpmParse(s, pr).Ok?
    ensures var m := OpmParse(s, pr).value;
      m.raw == TrimSpace(s) &&
      HeaderDone(Contains(TrimSpace(s), "MESSAGE_ID"), m.header) &&
      m.metaData.timeSystem != "" &&
      (m.kep.meanAnomaly == 0.0 || m.kep.trueAnomaly == 0.0) &&
      (!Contains(TrimSpace(s), "SEMI_MAJOR_AXIS") ==> m.kep == EmptyKeplerianElements())
  {
    var raw := TrimSpace(s);
    var lines := OpmLines(s);
    var found := Contains(raw, "MESSAGE_ID");
    var hr := HeaderFrom(ParseLine, lines, 0, found, EmptyHeader()).value;
    var mr := MetaDataFrom(ParseLine, lines, hr.1, EmptyMetaData()).value;
    var sr := StateVectorFrom(ParseLine, lines, mr.1, EmptyStateVector(), pr).value;
    HeaderStops(ParseLine, lines, 0, found, EmptyHeader(), hr);
    MetaDataStops(ParseLine, lines, hr.1, EmptyMetaData(), mr);
    KeplerianSectionRule(raw, lines, sr.1, pr);
  }

  /**
    The lines that end the first three sections, in order: the header's
    stop line, the TIME_SYSTEM line, and the Z_DOT line whose value is the
    state vector's Z_DOT.
   */
  predicate SectionEnds(parse: string -> Result<KV, LexError>, lines: seq<string>, h: int, m: int, z: int, found: bool, msg: OpmMessage, pr: string -> Option<real>) {
    0 <= h < m < z < |lines| &&
    FilledLine(parse, lines[h], HeaderStopKey(found)) &&
    FilledLine(parse, lines[m], "TIME_SYSTEM") && parse(lines[m]).value.value == msg.metaData.timeSystem &&
    KeyLine(parse, lines[z], "Z_DOT") && pr(parse(lines[z]).value.value) == Some(msg.stateVector.zDot)
  }

  /** The three loops an accepted OPM went through, one after the other. */
  lemma OpmParseSections(s: string, pr: string -> Option<real>)
    requires OpmParse(s, pr).Ok?
    ensures var lines := OpmLines(s);
      var hr := HeaderFrom(ParseLine, lines, 0, Contains(TrimSpace(s), "MESSAGE_ID"), EmptyHeader());
      hr.Ok? &&
      var mr := MetaDataFrom(ParseLine, lines, hr.value.1, EmptyMetaData());
      mr.Ok? &&
      var sr := StateVectorFrom(ParseLine, lines, mr.value.1, EmptyStateVector(), pr);
      sr.Ok? && OpmParse(s, pr).value.metaData == mr.value.0 && OpmParse(s, pr).value.stateVector == sr.value.0
  {
    var raw, lines := TrimSpace(s), OpmLines(s);
    var hr := HeaderFrom(ParseLine, lines, 0, Contains(raw, "MESSAGE_ID"), EmptyHeader());
    assert hr.Ok?;
    var mr := MetaDataFrom(ParseLine, lines, hr.value.1, EmptyMetaData());
    assert mr.Ok?;
    var sr := StateVectorFrom(ParseLine, lines, mr.value.1, EmptyStateVector(), pr);
    assert sr.Ok?;
    var kep := KeplerianSection(raw, lines, sr.value.1, pr);
    assert OpmParse(s, pr) == Ok(OpmMessage(hr.value.0, mr.value.0, sr.value.0, kep.value, raw));
  }

  /** The sections of an accepted OPM follow one another in its non-empty lines. */
  lemma OpmSectionOrder(s: string, pr: string -> Option<real>)
    requires OpmParse(s, pr).Ok?
    ensures exists h, m, z :: SectionEnds(ParseLine, OpmLines(s), h, m, z, Contains(TrimSpace(s), "MESSAGE_ID"), OpmParse(s, pr).value, pr)
  {
    OpmParseSections(s, pr);
    var lines := OpmLines(s);
    var found := Contains(TrimSpace(s), "MESSAGE_ID");
    var hr := HeaderFrom(ParseLine, lines, 0, found, EmptyHeader()).value;
    var mr := MetaDataFrom(ParseLine, lines, hr.1, EmptyMetaData()).value;
    var sr := StateVectorFrom(ParseLine, lines, mr.1, EmptyStateVector(), pr).value;
    SectionsInOrder(ParseLine, lines, found, hr, mr, sr, OpmParse(s, pr).value, pr);
  }

  lemma SectionsInOrder(parse: string -> Result<KV, LexError>, lines: seq<string>, found: bool,
                        hr: (OpmHeader, nat), mr: (OpmMetaData, nat), sr: (StateVector, nat), msg: OpmMessage, pr: string -> Option<real>)
    requires HeaderFrom(parse, lines, 0, found, EmptyHeader()) == Ok(hr) && hr.1 <= |lines|
    requires MetaDataFrom(parse, lines, hr.1, EmptyMetaData()) == Ok(mr) && mr.1 <= |lines|
    requires StateVectorFrom(parse, lines, mr.1, EmptyStateVector(), pr) == Ok(sr)
    requires msg.metaData == mr.0 && msg.stateVector == sr.0
    ensures SectionEnds(parse, lines, hr.1 - 1, mr.1 - 1, sr.1 - 1, found, msg, pr)
  {
    var (h, m, z) := (hr.1 - 1, mr.1 - 1, sr.1 - 1);
    assert 0 <= h < hr.1 <= |lines| && FilledLine(parse, lines[h], HeaderStopKey(found)) by {
      HeaderStops(parse, lines, 0, found, EmptyHeader(), hr);
    }
    assert hr.1 <= m < |lines| && FilledLine(parse, lines[m], "TIME_SYSTEM") && parse(lines[m]).value.value == mr.0.timeSystem by {
      MetaDataStops(parse, lines, hr.1, EmptyMetaData(), mr);
    }
    assert mr.1 <= z < |lines| && KeyLine(parse, lines[z], "Z_DOT") && pr(parse(lines[z]).value.value) == Some(sr.0.zDot) by {
      StateVectorStops(parse, lines, mr.1, EmptyStateVector(), pr, sr);
    }
  }

  /** The header loop of ParseOPM. */
  method ReadHeader(parse: string -> Result<KV, LexError>, lines: seq<string>, i0: nat, foundMessageId: bool) returns (r: Result<(OpmHeader, nat), OpmError>)
    requires i0 <= |lines|
    ensures r == HeaderFrom(parse, lines, i0, foundMessageId, EmptyHeader())
  {
    var header: OpmHeader;
    var i: nat;
    header := EmptyHeader();
    i := i0;
    while true
      invariant i <= |lines|
      invariant HeaderFrom(parse, lines, i0, foundMessageId, EmptyHeader()) == HeaderFrom(parse, lines, i, foundMessageId, header)
      decreases |lines| - i
    {
      if i == |lines| {
        return Err(OutOfLines);
      }
      var line := lines[i];
      i := i + 1;
      if line == "" {
        continue;
      }
      var kv := parse(line);
      if kv.Err? {
        return Err(LineError(kv.error));
      }
      var next := HeaderField(header, kv.value);
      if next.Err? {
        return Err(next.error);
      }
      HeaderFromLine(parse, lines, i - 1, foundMessageId, header, kv.value, next.value);
      header := next.value;
      if foundMessageId && header.messageId != "" {
        break;
      }
      if !foundMessageId && header.originator != "" {
        break;
      }
    }
    r := Ok((header, i));
  }

  /** The metadata loop of ParseOPM. */
  method ReadMetaData(parse: string -> Result<KV, LexError>, lines: seq<string>, i0: nat) returns (r: Result<(OpmMetaData, nat), OpmError>)
    requires i0 <= |lines|
    ensures r == MetaDataFrom(parse, lines, i0, EmptyMetaData())
  {
    var metaData: OpmMetaData;
    var i: nat;
    metaData := EmptyMetaData();
    i := i0;
    while true
      invariant i <= |lines|
      invariant MetaDataFrom(parse, lines, i0, EmptyMetaData()) == MetaDataFrom(parse, lines, i, metaData)
      decreases |lines| - i
    {
      if i == |lines| {
        return Err(OutOfLines);
      }
      var line := lines[i];
      i := i + 1;
      if line == "" {
        continue;
      }
      var kv := parse(line);
      if kv.Err? {
        return Err(LineError(kv.error));
      }
      var next := MetaDataField(metaData, kv.value);
      if next.Err? {
        return Err(next.error);
      }
      metaData := next.value;
      if metaData.timeSystem != "" {
        break;
      }
    }
    r := Ok((metaData, i));
  }

  /** The state-vector loop of ParseOPM. */
  method ReadStateVector(parse: string -> Result<KV, LexError>, lines: seq<string>, i0: nat, pr: string -> Option<real>) returns (r: Result<(StateVector, nat), OpmError>)
    requires i0 <= |lines|
    ensures r == StateVectorFrom(parse, lines, i0, EmptyStateVector(), pr)
  {
    var stateVector: StateVector;
    var i: nat;
    stateVector := EmptyStateVector();
    i := i0;
    while true
      invariant i <= |lines|
      invariant StateVectorFrom(parse, lines, i0, EmptyStateVector(), pr) == StateVectorFrom(parse, lines, i, stateVector, pr)
      decreases |lines| - i
    {
      if i == |lines| {
        return Err(OutOfLines);
      }
      var line := lines[i];
      i := i + 1;
      if line == "" {
        continue;
      }
      var kv := parse(line);
      if kv.Err? {
        return Err(LineError(kv.error));
      }
      var next := StateVectorField(stateVector, kv.value, pr);
      if next.Err? {
        return Err(next.error);
      }
      stateVector := next.value;
      var foundZdot := kv.value.key == "Z_DOT";
      if foundZdot {
        break;
      }
    }
    r := Ok((stateVector, i));
  }

  /** The osculating-elements loop of ParseOPM. */
  method ReadKeplerian(parse: string -> Result<KV, LexError>, lines: seq<string>, i0: nat, pr: string -> Option<real>) returns (r: Result<(KeplerianElements, nat), OpmError>)
    requires i0 <= |lines|
    ensures r == KeplerianFrom(parse, lines, i0, EmptyKeplerianElements(), pr)
  {
    var kep: KeplerianElements;
    var i: nat;
    kep := EmptyKeplerianElements();
    i := i0;
    while true
      invariant i <= |lines|
      invariant KeplerianFrom(parse, lines, i0, EmptyKeplerianElements(), pr) == KeplerianFrom(parse, lines, i, kep, pr)
      decreases |lines| - i
    {
      if i == |lines| {
        return Err(OutOfLines);
      }
      var line := lines[i];
      i := i + 1;
      if line == "" {
        continue;
      }
      var kv := parse(line);
      if kv.Err? {
        return Err(LineError(kv.error));
      }
      var next := KeplerianField(kep, kv.value, pr);
      if next.Err? {
        return Err(next.error);
      }
      kep := next.value;
      var foundGm := kv.value.key == "GM";
      if foundGm {
        break;
      }
    }
    r := Ok((kep, i));
  }

  /** ParseOPM: trim, split, drop the empty lines, then the four section loops over one line index. */
  method ParseOpm(s: string, pr: string -> Option<real>) returns (r: Result<OpmMessage, OpmError>)
    ensures r == OpmParse(s, pr)
  {
    var raw := TrimSpace(s);
    var lineEnding := DetectLineEnding(raw);
    var lines := RemoveEmptyLines(Split(raw, lineEnding));
    var foundMessageId := Contains(raw, "MESSAGE_ID");
    var header := ReadHeader(ParseLine, lines, 0, foundMessageId);
    if header.Err? {
      return Err(header.error);
    }
    var metaData := ReadMetaData(ParseLine, lines, header.value.1);
    if metaData.Err? {
      return Err(metaData.error);
    }
    var stateVector := ReadStateVector(ParseLine, lines, metaData.value.1, pr);
    if stateVector.Err? {
      return Err(stateVector.error);
    }
    var kep := EmptyKeplerianElements();
    if Contains(raw, "SEMI_MAJOR_AXIS") {
      var read := ReadKeplerian(ParseLine, lines, stateVector.value.1, pr);
      if read.Err? {
        return Err(read.error);
      }
      kep := read.value.0;
      if kep.meanAnomaly != 0.0 && kep.trueAnomaly != 0.0 {
        return Err(BothAnomalies);
      }
    }
    r := Ok(OpmMessage(header.value.0, metaData.value.0, stateVector.value.0, kep, raw));
  }
}

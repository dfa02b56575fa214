/**
  The orbit mean-elements message (omm.go): its struct tables and ParseOMM,
  which collects the user-defined parameters and then runs the ordered
  decoder over the flattened descriptors.
 */
module Omm {
  import opened Wrappers
  import opened GoStrings
  import opened Kvn
  import opened Schema
  import opened SharedTypes
  import opened Decoder

  /** omm.go, type OMMHeader. */
  function OmmHeaderFields(): seq<GoField> {
    [ GoField("CcsdsOmmVers", GoString, "CCSDS_OMM_VERS" + RequiredOption),
      GoField("Comments", GoStrings, "COMMENT"),
      GoField("Classification", GoString, "CLASSIFICATION"),
      GoField("CreationDate", GoTime, "CREATION_DATE" + RequiredOption),
      GoField("Originator", GoString, "ORIGINATOR" + RequiredOption),
      GoField("MessageId", GoString, "MESSAGE_ID") ]
  }

  /** The descriptors of OmmHeader, in field order. */
  function OmmHeaderDescriptors(): seq<Descriptor> {
    [ Descriptor("CCSDS_OMM_VERS", Str, true),
      Descriptor("COMMENT", Comments, false),
      Descriptor("CLASSIFICATION", Str, false),
      Descriptor("CREATION_DATE", Time, true),
      Descriptor("ORIGINATOR", Str, true),
      Descriptor("MESSAGE_ID", Str, false) ]
  }

  lemma OmmHeaderKinds() ensures KindsMatch(OmmHeaderFields(), OmmHeaderDescriptors()) { }
  lemma OmmHeaderTags() ensures TagsMatch(OmmHeaderFields(), OmmHeaderDescriptors()) { }
  lemma OmmHeaderNames0() ensures PlainNamesIn(OmmHeaderDescriptors(), 0, 4) { }
  lemma OmmHeaderNames4() ensures PlainNamesIn(OmmHeaderDescriptors(), 4, 6) { }
  lemma OmmHeaderNames() ensures PlainNames(OmmHeaderDescriptors()) {
    OmmHeaderNames0();
    OmmHeaderNames4();
    PlainNamesJoin(OmmHeaderDescriptors(), 0, 4, 6);
  }

  /** getODMFields on OmmHeader yields its descriptors. */
  lemma OmmHeaderSchema()
    ensures Flatten(OmmHeaderFields()) == OmmHeaderDescriptors()
  {
    OmmHeaderKinds();
    OmmHeaderTags();
    OmmHeaderNames();
    TaggedLeaves(OmmHeaderFields(), OmmHeaderDescriptors());
  }

  /** omm.go, type OMMMetaData. */
  function OmmMetaDataFields(): seq<GoField> {
    [ GoField("Comments", GoStrings, "COMMENT"),
      GoField("ObjectName", GoString, "OBJECT_NAME" + RequiredOption),
      GoField("ObjectId", GoString, "OBJECT_ID" + RequiredOption),
      GoField("CenterName", GoString, "CENTER_NAME" + RequiredOption),
      GoField("RefFrame", GoString, "REF_FRAME" + RequiredOption),
      GoField("RefFrameEpoch", GoTime, "REF_FRAME_EPOCH"),
      GoField("TimeSystem", GoString, "TIME_SYSTEM" + RequiredOption),
      GoField("MeanElementTheory", GoString, "MEAN_ELEMENT_THEORY") ]
  }

  /** The descriptors of OmmMetaData, in field order. */
  function OmmMetaDataDescriptors(): seq<Descriptor> {
    [ Descriptor("COMMENT", Comments, false),
      Descriptor("OBJECT_NAME", Str, true),
      Descriptor("OBJECT_ID", Str, true),
      Descriptor("CENTER_NAME", Str, true),
      Descriptor("REF_FRAME", Str, true),
      Descriptor("REF_FRAME_EPOCH", Time, false),
      Descriptor("TIME_SYSTEM", Str, true),
      Descriptor("MEAN_ELEMENT_THEORY", Str, false) ]
  }

  lemma OmmMetaDataKinds() ensures KindsMatch(OmmMetaDataFields(), OmmMetaDataDescriptors()) { }
  lemma OmmMetaDataTags() ensures TagsMatch(OmmMetaDataFields(), OmmMetaDataDescriptors()) { }
  lemma OmmMetaDataNames0() ensures PlainNamesIn(OmmMetaDataDescriptors(), 0, 4) { }
  lemma OmmMetaDataNames4() ensures PlainNamesIn(OmmMetaDataDescriptors(), 4, 8) { }
  lemma OmmMetaDataNames() ensures PlainNames(OmmMetaDataDescriptors()) {
    OmmMetaDataNames0();
    OmmMetaDataNames4();
    PlainNamesJoin(OmmMetaDataDescriptors(), 0, 4, 8);
  }

  /** getODMFields on OmmMetaData yields its descriptors. */
  lemma OmmMetaDataSchema()
    ensures Flatten(OmmMetaDataFields()) == OmmMetaDataDescriptors()
  {
    OmmMetaDataKinds();
    OmmMetaDataTags();
    OmmMetaDataNames();
    TaggedLeaves(OmmMetaDataFields(), OmmMetaDataDescriptors());
  }

  /** omm.go, type MeanKeplerianElements. */
  function MeanKeplerianElementsFields(): seq<GoField> {
    [ GoField("Comments", GoStrings, "COMMENT"),
      GoField("Epoch", GoTime, "EPOCH" + RequiredOption),
      GoField("SemiMajorAxis", GoFloat, "SEMI_MAJOR_AXIS"),
      GoField("MeanMotion", GoFloat, "MEAN_MOTION"),
      GoField("Eccentricity", GoFloat, "ECCENTRICITY" + RequiredOption),
      GoField("Inclination", GoFloat, "INCLINATION" + RequiredOption),
      GoField("RaOfAscNode", GoFloat, "RA_OF_ASC_NODE" + RequiredOption),
      GoField("ArgOfPericenter", GoFloat, "ARG_OF_PERICENTER" + RequiredOption),
      GoField("MeanAnomaly", GoFloat, "MEAN_ANOMALY" + RequiredOption),
      GoField("Gm", GoFloat, "GM") ]
  }

  /** The descriptors of MeanKeplerianElements, in field order. */
  function MeanKeplerianElementsDescriptors(): seq<Descriptor> {
    [ Descriptor("COMMENT", Comments, false),
      Descriptor("EPOCH", Time, true),
      Descriptor("SEMI_MAJOR_AXIS", Real, false),
      Descriptor("MEAN_MOTION", Real, false),
      Descriptor("ECCENTRICITY", Real, true),
      Descriptor("INCLINATION", Real, true),
      Descriptor("RA_OF_ASC_NODE", Real, true),
      Descriptor("ARG_OF_PERICENTER", Real, true),
      Descriptor("MEAN_ANOMALY", Real, true),
      Descriptor("GM", Real, false) ]
  }

  lemma MeanKeplerianElementsKinds() ensures KindsMatch(MeanKeplerianElementsFields(), MeanKeplerianElementsDescriptors()) { }
  lemma MeanKeplerianElementsTags() ensures TagsMatch(MeanKeplerianElementsFields(), MeanKeplerianElementsDescriptors()) { }
  lemma MeanKeplerianElementsNames0() ensures PlainNamesIn(MeanKeplerianElementsDescriptors(), 0, 4) { }
  lemma MeanKeplerianElementsNames4() ensures PlainNamesIn(MeanKeplerianElementsDescriptors(), 4, 8) { }
  lemma MeanKeplerianElementsNames8() ensures PlainNamesIn(MeanKeplerianElementsDescriptors(), 8, 10) { }
  lemma MeanKeplerianElementsNames() ensures PlainNames(MeanKeplerianElementsDescriptors()) {
    MeanKeplerianElementsNames0();
    MeanKeplerianElementsNames4();
    MeanKeplerianElementsNames8();
    PlainNamesJoin(MeanKeplerianElementsDescriptors(), 0, 4, 8);
    PlainNamesJoin(MeanKeplerianElementsDescriptors(), 0, 8, 10);
  }

  /** getODMFields on MeanKeplerianElements yields its descriptors. */
  lemma MeanKeplerianElementsSchema()
    ensures Flatten(MeanKeplerianElementsFields()) == MeanKeplerianElementsDescriptors()
  {
    MeanKeplerianElementsKinds();
    MeanKeplerianElementsTags();
    MeanKeplerianElementsNames();
    TaggedLeaves(MeanKeplerianElementsFields(), MeanKeplerianElementsDescriptors());
  }

  /** omm.go, type TLERelatedParameters. */
  function TleRelatedParametersFields(): seq<GoField> {
    [ GoField("Comments", GoStrings, "COMMENT"),
      GoField("EphemerisType", GoString, "EPHEMERIS_TYPE"),
      GoField("ClassificationType", GoString, "CLASSIFICATION_TYPE"),
      GoField("NoradCatId", GoInt, "NORAD_CAT_ID"),
      GoField("ElementSetNo", GoInt, "ELEMENT_SET_NO"),
      GoField("RevAtEpoch", GoInt, "REV_AT_EPOCH"),
      GoField("BStar", GoFloat, "BSTAR"),
      GoField("BTerm", GoFloat, "BTERM"),
      GoField("MeanMotionDot", GoFloat, "MEAN_MOTION_DOT"),
      GoField("MeanMotionDdot", GoFloat, "MEAN_MOTION_DDOT"),
      GoField("Agom", GoFloat, "AGOM") ]
  }

  /** The descriptors of TleRelatedParameters, in field order. */
  function TleRelatedParametersDescriptors(): seq<Descriptor> {
    [ Descriptor("COMMENT", Comments, false),
      Descriptor("EPHEMERIS_TYPE", Str, false),
      Descriptor("CLASSIFICATION_TYPE", Str, false),
      Descriptor("NORAD_CAT_ID", Int, false),
      Descriptor("ELEMENT_SET_NO", Int, false),
      Descriptor("REV_AT_EPOCH", Int, false),
      Descriptor("BSTAR", Real, false),
      Descriptor("BTERM", Real, false),
      Descriptor("MEAN_MOTION_DOT", Real, false),
      Descriptor("MEAN_MOTION_DDOT", Real, false),
      Descriptor("AGOM", Real, false) ]
  }

  lemma TleRelatedParametersKinds() ensures KindsMatch(TleRelatedParametersFields(), TleRelatedParametersDescriptors()) { }
  lemma TleRelatedParametersTags() ensures TagsMatch(TleRelatedParametersFields(), TleRelatedParametersDescriptors()) { }
  lemma TleRelatedParametersNames0() ensures PlainNamesIn(TleRelatedParametersDescriptors(), 0, 2) { }
  lemma TleRelatedParametersNames2() ensures PlainNamesIn(TleRelatedParametersDescriptors(), 2, 4) { }
  lemma TleRelatedParametersNames4() ensures PlainNamesIn(TleRelatedParametersDescriptors(), 4, 8) { }
  lemma TleRelatedParametersNames8() ensures PlainNamesIn(TleRelatedParametersDescriptors(), 8, 11) { }
  lemma TleRelatedParametersNames() ensures PlainNames(TleRelatedParametersDescriptors()) {
    TleRelatedParametersNames0();
    TleRelatedParametersNames2();
    PlainNamesJoin(TleRelatedParametersDescriptors(), 0, 2, 4);
    TleRelatedParametersNames4();
    TleRelatedParametersNames8();
    PlainNamesJoin(TleRelatedParametersDescriptors(), 0, 4, 8);
    PlainNamesJoin(TleRelatedParametersDescriptors(), 0, 8, 11);
  }

  /** getODMFields on TleRelatedParameters yields its descriptors. */
  lemma TleRelatedParametersSchema()
    ensures Flatten(TleRelatedParametersFields()) == TleRelatedParametersDescriptors()
  {
    TleRelatedParametersKinds();
    TleRelatedParametersTags();
    TleRelatedParametersNames();
    TaggedLeaves(TleRelatedParametersFields(), TleRelatedParametersDescriptors());
  }

  /** type OMMData struct: four blocks and the untagged user-defined map. */
  function OmmDataFields(): seq<GoField> {
    [ GoField("MeanKeplerianElements", GoStruct(MeanKeplerianElementsFields()), ""),
      GoField("SpacecraftParameters", GoStruct(SpacecraftParametersFields()), ""),
      GoField("TLERelatedParameters", GoStruct(TleRelatedParametersFields()), ""),
      GoField("CovarianceMatrix", GoStruct(CovarianceMatrixFields()), ""),
      GoField("UserDefinedParameters", GoMap, "") ]
  }

  /** type OMM struct: header, metadata, data and an untagged Raw string. */
  function OmmFields(): seq<GoField> {
    [ GoField("Header", GoStruct(OmmHeaderFields()), ""),
      GoField("MetaData", GoStruct(OmmMetaDataFields()), ""),
      GoField("Data", GoStruct(OmmDataFields()), ""),
      GoField("Raw", GoString, "") ]
  }

  /** The data blocks in declaration order; the user-defined map contributes nothing. */
  lemma OmmDataSchema()
    ensures Flatten(OmmDataFields())
      == MeanKeplerianElementsDescriptors() + SpacecraftParametersDescriptors()
         + TleRelatedParametersDescriptors() + CovarianceMatrixDescriptors()
  {
    var mke := GoField("MeanKeplerianElements", GoStruct(MeanKeplerianElementsFields()), "");
    var sp := GoField("SpacecraftParameters", GoStruct(SpacecraftParametersFields()), "");
    var tle := GoField("TLERelatedParameters", GoStruct(TleRelatedParametersFields()), "");
    var cov := GoField("CovarianceMatrix", GoStruct(CovarianceMatrixFields()), "");
    var udp := GoField("UserDefinedParameters", GoMap, "");
    FlattenFive(mke, sp, tle, cov, udp);
    assert FieldDescriptors(mke) == MeanKeplerianElementsDescriptors() by {
      StructField("MeanKeplerianElements", MeanKeplerianElementsFields(), "");
      MeanKeplerianElementsSchema();
    }
    assert FieldDescriptors(sp) == SpacecraftParametersDescriptors() by {
      StructField("SpacecraftParameters", SpacecraftParametersFields(), "");
      SpacecraftParametersSchema();
    }
    assert FieldDescriptors(tle) == TleRelatedParametersDescriptors() by {
      StructField("TLERelatedParameters", TleRelatedParametersFields(), "");
      TleRelatedParametersSchema();
    }
    assert FieldDescriptors(cov) == CovarianceMatrixDescriptors() by {
      StructField("CovarianceMatrix", CovarianceMatrixFields(), "");
      CovarianceMatrixSchema();
    }
    assert FieldDescriptors(udp) == [] by { UntaggedLeaf(udp); }
  }

  /** The descriptors ParseOMM decodes with: getODMFields on the OMM struct. */
  function OmmDescriptors(): seq<Descriptor> {
    Flatten(OmmFields())
  }

  /**
    The OMM is decoded block by block: header, metadata, mean elements,
    spacecraft parameters, TLE parameters, covariance.
   */
  lemma OmmSchema()
    ensures OmmDescriptors()
      == OmmHeaderDescriptors() + OmmMetaDataDescriptors()
         + MeanKeplerianElementsDescriptors() + SpacecraftParametersDescriptors()
         + TleRelatedParametersDescriptors() + CovarianceMatrixDescriptors()
  {
    var header := GoField("Header", GoStruct(OmmHeaderFields()), "");
    var meta := GoField("MetaData", GoStruct(OmmMetaDataFields()), "");
    var data := GoField("Data", GoStruct(OmmDataFields()), "");
    var raw := GoField("Raw", GoString, "");
    FlattenFour(header, meta, data, raw);
    assert FieldDescriptors(header) == OmmHeaderDescriptors() by {
      StructField("Header", OmmHeaderFields(), "");
      OmmHeaderSchema();
    }
    assert FieldDescriptors(meta) == OmmMetaDataDescriptors() by {
      StructField("MetaData", OmmMetaDataFields(), "");
      OmmMetaDataSchema();
    }
    assert FieldDescriptors(data) == MeanKeplerianElementsDescriptors() + SpacecraftParametersDescriptors()
         + TleRelatedParametersDescriptors() + CovarianceMatrixDescriptors() by {
      StructField("Data", OmmDataFields(), "");
      OmmDataSchema();
    }
    assert FieldDescriptors(raw) == [] by { UntaggedLeaf(raw); }
    Regroup(OmmHeaderDescriptors(), OmmMetaDataDescriptors(), MeanKeplerianElementsDescriptors(),
      SpacecraftParametersDescriptors(), TleRelatedParametersDescriptors(), CovarianceMatrixDescriptors());
  }

  /* ---------------------------------------------------------------------
     ParseOMM
     --------------------------------------------------------------------- */

  /** Why ParseOMM failed: the tokenizer, or the ordered decoder. */
  datatype OmmError = LexFailure(lex: LexError) | DecodeFailure(decode: DecodeError)

  /**
    A decoded OMM: the values of the tagged fields by position in
    OmmDescriptors(), the user-defined parameters (a nil Go map is None),
    and Raw, which ParseOMM never sets.
   */
  datatype OmmMessage = OmmMessage(values: map<nat, Value>, userDefined: Option<map<string, string>>, raw: string)

  const UserDefinedPrefix: string := "USER_DEFINED_"

  predicate IsUserDefined(key: string) {
    HasPrefix(key, UserDefinedPrefix)
  }

  /**
    The user-defined loop from token `i` on: every token whose key starts
    with USER_DEFINED_ is stored under its key, the map being made on the
    first such token; a later token with the same key overwrites.
   */
  function UserDefinedFrom(kvs: seq<KV>, i: nat, acc: Option<map<string, string>>): Option<map<string, string>>
    requires i <= |kvs|
    decreases |kvs| - i
  {
    if i == |kvs| then acc
    else if IsUserDefined(kvs[i].key) then
      var m := if acc.None? then map[] else acc.value;
      UserDefinedFrom(kvs, i + 1, Some(m[kvs[i].key := kvs[i].value]))
    else UserDefinedFrom(kvs, i + 1, acc)
  }

  function UserDefined(kvs: seq<KV>): (r: Option<map<string, string>>)
    ensures r.Some? ==> forall key | key in r.value :: IsUserDefined(key)
  {
    UserDefinedFromSpec(kvs, 0, None);
    UserDefinedFrom(kvs, 0, None)
  }

  /** The user-defined loop of ParseOMM. */
  method CollectUserDefined(kvs: seq<KV>) returns (r: Option<map<string, string>>)
    ensures r == UserDefined(kvs)
  {
    r := None;
    var i := 0;
    while i < |kvs|
      invariant i <= |kvs|
      invariant UserDefined(kvs) == UserDefinedFrom(kvs, i, r)
    {
      if IsUserDefined(kvs[i].key) {
        if r.None? {
          r := Some(map[]);
        }
        r := Some(r.value[kvs[i].key := kvs[i].value]);
      }
      i := i + 1;
    }
  }

  /** The keys of the tokens from `i` on, as a sequence. */
  lemma KeysFrom(kvs: seq<KV>, i: nat)
    requires i < |kvs|
    ensures Keys(kvs[i..]) == [kvs[i].key] + Keys(kvs[i + 1..])
  {
  }

  /**
    The user-defined loop from token `i` keeps what it was given, adds a
    key for every user-defined token and no other key, and leaves under each
    key the value of the last token carrying it.
   */
  lemma {:induction false} UserDefinedFromSpec(kvs: seq<KV>, i: nat, acc: Option<map<string, string>>)
    requires i <= |kvs|
    requires acc.Some? ==> forall key :: key in acc.value ==> IsUserDefined(key)
    ensures var r := UserDefinedFrom(kvs, i, acc);
      (r.None? <==> acc.None? && forall p :: i <= p < |kvs| ==> !IsUserDefined(kvs[p].key)) &&
      (r.Some? ==> forall key :: key in r.value ==>
         IsUserDefined(key) && ((acc.Some? && key in acc.value) || key in Keys(kvs[i..]))) &&
      (acc.Some? ==> forall key :: key in acc.value && key !in Keys(kvs[i..]) ==>
         key in r.value && r.value[key] == acc.value[key]) &&
      (forall p :: i <= p < |kvs| && IsUserDefined(kvs[p].key) ==> r.Some? && kvs[p].key in r.value) &&
      (forall p :: i <= p < |kvs| && IsUserDefined(kvs[p].key) && (forall q :: p < q < |kvs| ==> kvs[q].key != kvs[p].key) ==>
         r.value[kvs[p].key] == kvs[p].value)
    decreases |kvs| - i
  {
    if i < |kvs| {
      var kv := kvs[i];
      var next := if IsUserDefined(kv.key) then Some((if acc.None? then map[] else acc.value)[kv.key := kv.value]) else acc;
      assert UserDefinedFrom(kvs, i, acc) == UserDefinedFrom(kvs, i + 1, next);
      UserDefinedFromSpec(kvs, i + 1, next);
      KeysFrom(kvs, i);
    }
  }

  /**
    The user-defined parameters of ParseOMM: no map unless some key starts
    with USER_DEFINED_; otherwise exactly those keys, each with the value of
    its last token.
   */
  lemma UserDefinedSpec(kvs: seq<KV>)
    ensures UserDefined(kvs).None? <==> forall p :: 0 <= p < |kvs| ==> !IsUserDefined(kvs[p].key)
    ensures UserDefined(kvs).Some? ==> forall key :: key in UserDefined(kvs).value ==> IsUserDefined(key) && key in Keys(kvs)
    ensures forall p :: 0 <= p < |kvs| && IsUserDefined(kvs[p].key) ==> UserDefined(kvs).Some? && kvs[p].key in UserDefined(kvs).value
    ensures forall p :: 0 <= p < |kvs| && IsUserDefined(kvs[p].key) && (forall q :: p < q < |kvs| ==> kvs[q].key != kvs[p].key) ==>
      UserDefined(kvs).value[kvs[p].key] == kvs[p].value
  {
    UserDefinedFromSpec(kvs, 0, None);
    assert kvs[0..] == kvs;
  }

  /** ParseOMM as a function of the message text and the float parser. */
  function OmmParse(s: string, pr: string -> Option<real>): Result<OmmMessage, OmmError> {
    match Tokenize(s)
    case Err(e) => Err(LexFailure(e))
    case Ok(kvs) =>
      match Decode(OmmDescriptors(), kvs, pr)
      case Err(e) => Err(DecodeFailure(e))
      case Ok(d) => Ok(OmmMessage(d.values, UserDefined(kvs), ""))
  }

  /** ParseOMM: tokenize, collect the user-defined parameters, flatten the OMM struct, decode. */
  method ParseOmm(s: string, pr: string -> Option<real>) returns (r: Result<OmmMessage, OmmError>)
    ensures r == OmmParse(s, pr)
  {
    var kvs := ParseIntoKVs(s);
    if kvs.Err? {
      return Err(LexFailure(kvs.error));
    }
    var userDefined := CollectUserDefined(kvs.value);
    var fields := GetOdmFields(OmmFields());
    var decoded := PopulateFields(fields, kvs.value, pr);
    if decoded.Err? {
      return Err(DecodeFailure(decoded.error));
    }
    r := Ok(OmmMessage(decoded.value.values, userDefined, ""));
  }

  /** The keys an OMM must carry, in the order its tables list them: header, metadata, mean elements. */
  function OmmRequiredNames(): seq<string> {
    ["CCSDS_OMM_VERS", "CREATION_DATE", "ORIGINATOR"]
    + ["OBJECT_NAME", "OBJECT_ID", "CENTER_NAME", "REF_FRAME", "TIME_SYSTEM"]
    + (["EPOCH", "ECCENTRICITY"] + ["INCLINATION", "RA_OF_ASC_NODE", "ARG_OF_PERICENTER", "MEAN_ANOMALY"])
  }

  lemma OmmHeaderRequired()
    ensures RequiredNames(OmmHeaderDescriptors()) == ["CCSDS_OMM_VERS", "CREATION_DATE", "ORIGINATOR"]
  {
  }

  lemma OmmMetaDataRequired()
    ensures RequiredNames(OmmMetaDataDescriptors()) == ["OBJECT_NAME", "OBJECT_ID", "CENTER_NAME", "REF_FRAME", "TIME_SYSTEM"]
  {
  }

  lemma MeanKeplerianElementsRequired()
    ensures RequiredNames(MeanKeplerianElementsDescriptors())
         == ["EPOCH", "ECCENTRICITY"] + ["INCLINATION", "RA_OF_ASC_NODE", "ARG_OF_PERICENTER", "MEAN_ANOMALY"]
  {
    var ds := MeanKeplerianElementsDescriptors();
    assert ds == ds[..5] + ds[5..];
    RequiredNamesAppend(ds[..5], ds[5..]);
    MeanElementsShapeRequired();
    MeanElementsAnglesRequired();
  }

  /** The required names of the mean elements up to ECCENTRICITY. */
  lemma MeanElementsShapeRequired()
    ensures RequiredNames(MeanKeplerianElementsDescriptors()[..5]) == ["EPOCH", "ECCENTRICITY"]
  {
    assert MeanKeplerianElementsDescriptors()[..5] == [ Descriptor("COMMENT", Comments, false),
      Descriptor("EPOCH", Time, true),
      Descriptor("SEMI_MAJOR_AXIS", Real, false),
      Descriptor("MEAN_MOTION", Real, false),
      Descriptor("ECCENTRICITY", Real, true) ];
  }

  /** The required names of the mean elements from INCLINATION on. */
  lemma MeanElementsAnglesRequired()
    ensures RequiredNames(MeanKeplerianElementsDescriptors()[5..])
         == ["INCLINATION", "RA_OF_ASC_NODE", "ARG_OF_PERICENTER", "MEAN_ANOMALY"]
  {
    assert MeanKeplerianElementsDescriptors()[5..] == [ Descriptor("INCLINATION", Real, true),
      Descriptor("RA_OF_ASC_NODE", Real, true),
      Descriptor("ARG_OF_PERICENTER", Real, true),
      Descriptor("MEAN_ANOMALY", Real, true),
      Descriptor("GM", Real, false) ];
  }

  lemma TleRelatedParametersOptional()
    ensures forall k | 0 <= k < |TleRelatedParametersDescriptors()| :: !TleRelatedParametersDescriptors()[k].required
  {
  }

  lemma SpacecraftParametersNotRequired()
    ensures RequiredNames(SpacecraftParametersDescriptors()) == []
  {
    SharedBlocksOptional();
    RequiredNamesNone(SpacecraftParametersDescriptors());
  }

  lemma CovarianceMatrixNotRequired()
    ensures RequiredNames(CovarianceMatrixDescriptors()) == []
  {
    SharedBlocksOptional();
    RequiredNamesNone(CovarianceMatrixDescriptors());
  }

  lemma TleRelatedParametersNotRequired()
    ensures RequiredNames(TleRelatedParametersDescriptors()) == []
  {
    TleRelatedParametersOptional();
    RequiredNamesNone(TleRelatedParametersDescriptors());
  }

  lemma OmmOptionalBlocks()
    ensures RequiredNames(SpacecraftParametersDescriptors()) == []
    ensures RequiredNames(TleRelatedParametersDescriptors()) == []
    ensures RequiredNames(CovarianceMatrixDescriptors()) == []
  {
    SpacecraftParametersNotRequired();
    CovarianceMatrixNotRequired();
    TleRelatedParametersNotRequired();
  }

  /** The required names of six consecutive blocks. */
  lemma RequiredNamesOfBlocks(a: seq<Descriptor>, b: seq<Descriptor>, c: seq<Descriptor>, d: seq<Descriptor>, e: seq<Descriptor>, f: seq<Descriptor>)
    ensures RequiredNames(a + b + c + d + e + f)
         == RequiredNames(a) + RequiredNames(b) + RequiredNames(c) + RequiredNames(d) + RequiredNames(e) + RequiredNames(f)
  {
    RequiredNamesAppend(a + b + c + d + e, f);
    RequiredNamesAppend(a + b + c + d, e);
    RequiredNamesAppend(a + b + c, d);
    RequiredNamesAppend(a + b, c);
    RequiredNamesAppend(a, b);
  }

  /** Three required blocks followed by three optional ones. */
  lemma RequiredOfThree(a: seq<string>, b: seq<string>, c: seq<string>)
    ensures a + b + c + [] + [] + [] == a + b + c
  {
  }

  /** The required descriptors of the OMM are its fourteen mandatory keys, in order. */
  lemma OmmRequired()
    ensures RequiredNames(OmmDescriptors()) == OmmRequiredNames()
  {
    OmmSchema();
    RequiredNamesOfBlocks(OmmHeaderDescriptors(), OmmMetaDataDescriptors(), MeanKeplerianElementsDescriptors(),
      SpacecraftParametersDescriptors(), TleRelatedParametersDescriptors(), CovarianceMatrixDescriptors());
    OmmHeaderRequired();
    OmmMetaDataRequired();
    MeanKeplerianElementsRequired();
    OmmOptionalBlocks();
    RequiredOfThree(RequiredNames(OmmHeaderDescriptors()), RequiredNames(OmmMetaDataDescriptors()),
      RequiredNames(MeanKeplerianElementsDescriptors()));
  }

  /**
    A message that ParseOMM accepts carries the fourteen mandatory keys in
    the order of the tables (other keys may come between them).
   */
  lemma OmmCarriesRequired(s: string, pr: string -> Option<real>)
    requires OmmParse(s, pr).Ok?
    ensures Tokenize(s).Ok? && IsSubseq(OmmRequiredNames(), Keys(Tokenize(s).value))
  {
    DecodeFindsRequired(OmmDescriptors(), Tokenize(s).value, pr);
    OmmRequired();
  }

  /** A message without one of the mandatory keys is rejected. */
  lemma OmmMissingRequired(s: string, pr: string -> Option<real>, name: string)
    requires name in OmmRequiredNames()
    requires Tokenize(s).Ok? && name !in Keys(Tokenize(s).value)
    ensures OmmParse(s, pr).Err?
  {
    if OmmParse(s, pr).Ok? {
      OmmCarriesRequired(s, pr);
      SubseqMember(OmmRequiredNames(), Keys(Tokenize(s).value), name);
      assert false;
    }
  }

  /**
    Every value ParseOMM returns is of its field's type, and every
    mandatory field has a value.
   */
  lemma OmmValuesTyped(s: string, pr: string -> Option<real>)
    requires OmmParse(s, pr).Ok?
    ensures var vs := OmmParse(s, pr).value.values;
      (forall k :: k in vs ==> k < |OmmDescriptors()| && Fits(OmmDescriptors()[k].kind, vs[k])) &&
      (forall k :: 0 <= k < |OmmDescriptors()| && OmmDescriptors()[k].required && !OmmDescriptors()[k].kind.Repeated? ==> k in vs)
  {
    DecodeSound(OmmDescriptors(), Tokenize(s).value, pr);
  }
  /** An OMM starts with the required CCSDS_OMM_VERS key. */
  lemma OmmFirstDescriptor()
    ensures OmmDescriptors() != [] && OmmDescriptors()[0] == Descriptor("CCSDS_OMM_VERS", Str, true)
  {
    OmmSchema();
    assert OmmHeaderDescriptors() != [] && OmmHeaderDescriptors()[0] == Descriptor("CCSDS_OMM_VERS", Str, true);
    FirstOfConcat(OmmHeaderDescriptors(), OmmMetaDataDescriptors());
    FirstOfConcat(OmmHeaderDescriptors() + OmmMetaDataDescriptors(), MeanKeplerianElementsDescriptors());
    FirstOfConcat(OmmHeaderDescriptors() + OmmMetaDataDescriptors() + MeanKeplerianElementsDescriptors(),
      SpacecraftParametersDescriptors());
    FirstOfConcat(OmmHeaderDescriptors() + OmmMetaDataDescriptors() + MeanKeplerianElementsDescriptors()
      + SpacecraftParametersDescriptors(), TleRelatedParametersDescriptors());
    FirstOfConcat(OmmHeaderDescriptors() + OmmMetaDataDescriptors() + MeanKeplerianElementsDescriptors()
      + SpacecraftParametersDescriptors() + TleRelatedParametersDescriptors(), CovarianceMatrixDescriptors());
  }

  lemma FirstOfConcat(a: seq<Descriptor>, b: seq<Descriptor>)
    requires a != []
    ensures a + b != [] && (a + b)[0] == a[0]
  {
  }

  /** A user-defined key starts with 'U'. */
  lemma UserDefinedInitial(key: string)
    requires IsUserDefined(key)
    ensures key != [] && key[0] == 'U'
  {
    assert key[0] == UserDefinedPrefix[0];
  }

  /**
    USER_DEFINED_ tokens are collected apart and are not skipped by the
    ordered pass: one standing first, where CCSDS_OMM_VERS is required,
    makes the decode fail with a key mismatch naming both keys.
   */
  lemma OmmUserDefinedFirst(s: string, pr: string -> Option<real>)
    requires Tokenize(s).Ok? && Tokenize(s).value != [] && IsUserDefined(Tokenize(s).value[0].key)
    ensures OmmParse(s, pr) == Err(DecodeFailure(KeyMismatch("CCSDS_OMM_VERS", Tokenize(s).value[0].key)))
  {
    var kvs := Tokenize(s).value;
    var ds := OmmDescriptors();
    OmmFirstDescriptor();
    assert kvs[0].key != "CCSDS_OMM_VERS" by {
      UserDefinedInitial(kvs[0].key);
    }
    DecodeMismatchAt(ds, 0, kvs, 0, map[], pr);
  }

  /** None of the fourteen mandatory OMM keys starts with a 'U'. */
  lemma RequiredNamesInitials()
    ensures forall n | n in OmmRequiredNames() :: n != [] && n[0] != 'U'
  {
  }

  /** No required OMM descriptor is named like a user-defined key. */
  lemma RequiredNotUserDefined(k: nat)
    requires k < |OmmDescriptors()| && OmmDescriptors()[k].required
    ensures !IsUserDefined(OmmDescriptors()[k].name)
  {
    var name := OmmDescriptors()[k].name;
    assert name in OmmRequiredNames() by {
      RequiredNamed(OmmDescriptors(), k);
      OmmRequired();
    }
    RequiredNamesInitials();
    if IsUserDefined(name) {
      UserDefinedInitial(name);
    }
  }

  /**
    The ordered pass never skips a USER_DEFINED_ token where a mandatory key
    is due: whenever a required OMM descriptor is visited with the cursor on
    such a token, the decode fails with a key mismatch naming both keys.
   */
  lemma OmmUserDefinedAtRequired(i: nat, kvs: seq<KV>, c: nat, out: map<nat, Value>, pr: string -> Option<real>)
    requires i < |OmmDescriptors()| && c < |kvs| && OmmDescriptors()[i].required && IsUserDefined(kvs[c].key)
    ensures DecodeFrom(OmmDescriptors(), i, kvs, c, out, pr) == Err(KeyMismatch(OmmDescriptors()[i].name, kvs[c].key))
  {
    RequiredNotUserDefined(i);
    DecodeMismatchAt(OmmDescriptors(), i, kvs, c, out, pr);
  }
}

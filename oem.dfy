/**
  The orbit ephemeris message tables (oem.go): header and metadata. The data
  section has no fields, so it contributes no descriptors and whatever
  follows the metadata is left to the caller.
 */
module Oem {
  import opened Schema
  import opened Decoder

  /** oem.go, type OEMHeader: CREATION_DATE is a string here, kept verbatim. */
  function OemHeaderFields(): seq<GoField> {
    [ GoField("CcsdsOemVers", GoString, "CCSDS_OEM_VERS" + RequiredOption),
      GoField("Comments", GoStrings, "COMMENT"),
      GoField("Classification", GoString, "CLASSIFICATION"),
      GoField("CreationDate", GoString, "CREATION_DATE" + RequiredOption),
      GoField("Originator", GoString, "ORIGINATOR" + RequiredOption),
      GoField("MessageId", GoString, "MESSAGE_ID") ]
  }

  /** The descriptors of OemHeader, in field order. */
  function OemHeaderDescriptors(): seq<Descriptor> {
    [ Descriptor("CCSDS_OEM_VERS", Str, true),
      Descriptor("COMMENT", Comments, false),
      Descriptor("CLASSIFICATION", Str, false),
      Descriptor("CREATION_DATE", Str, true),
      Descriptor("ORIGINATOR", Str, true),
      Descriptor("MESSAGE_ID", Str, false) ]
  }

  lemma OemHeaderKinds() ensures KindsMatch(OemHeaderFields(), OemHeaderDescriptors()) { }
  lemma OemHeaderTags() ensures TagsMatch(OemHeaderFields(), OemHeaderDescriptors()) { }
  lemma OemHeaderNames0() ensures PlainNamesIn(OemHeaderDescriptors(), 0, 4) { }
  lemma OemHeaderNames4() ensures PlainNamesIn(OemHeaderDescriptors(), 4, 6) { }
  lemma OemHeaderNames() ensures PlainNames(OemHeaderDescriptors()) {
    OemHeaderNames0();
    OemHeaderNames4();
    PlainNamesJoin(OemHeaderDescriptors(), 0, 4, 6);
  }

  /** getODMFields on OemHeader yields its descriptors. */
  lemma OemHeaderSchema()
    ensures Flatten(OemHeaderFields()) == OemHeaderDescriptors()
  {
    OemHeaderKinds();
    OemHeaderTags();
    OemHeaderNames();
    TaggedLeaves(OemHeaderFields(), OemHeaderDescriptors());
  }

  /** oem.go, type OEMMetaData. */
  function OemMetaDataFields(): seq<GoField> {
    [ GoField("Comments", GoStrings, "COMMENT"),
      GoField("ObjectName", GoString, "OBJECT_NAME" + RequiredOption),
      GoField("ObjectId", GoString, "OBJECT_ID" + RequiredOption),
      GoField("CenterName", GoString, "CENTER_NAME" + RequiredOption),
      GoField("RefFrame", GoString, "REF_FRAME" + RequiredOption),
      GoField("RefFrameEpoch", GoTime, "REF_FRAME_EPOCH"),
      GoField("TimeSystem", GoString, "TIME_SYSTEM" + RequiredOption),
      GoField("StartTime", GoTime, "START_TIME" + RequiredOption),
      GoField("UseableStartTime", GoTime, "USEABLE_START_TIME"),
      GoField("UseableStopTime", GoTime, "USEABLE_STOP_TIME"),
      GoField("StopTime", GoTime, "STOP_TIME" + RequiredOption),
      GoField("Interpolation", GoString, "INTERPOLATION"),
      GoField("InterpolationDeg", GoInt, "INTERPOLATION_DEGREE") ]
  }

  /** The descriptors of OemMetaData, in field order. */
  function OemMetaDataDescriptors(): seq<Descriptor> {
    [ Descriptor("COMMENT", Comments, false),
      Descriptor("OBJECT_NAME", Str, true),
      Descriptor("OBJECT_ID", Str, true),
      Descriptor("CENTER_NAME", Str, true),
      Descriptor("REF_FRAME", Str, true),
      Descriptor("REF_FRAME_EPOCH", Time, false),
      Descriptor("TIME_SYSTEM", Str, true),
      Descriptor("START_TIME", Time, true),
      Descriptor("USEABLE_START_TIME", Time, false),
      Descriptor("USEABLE_STOP_TIME", Time, false),
      Descriptor("STOP_TIME", Time, true),
      Descriptor("INTERPOLATION", Str, false),
      Descriptor("INTERPOLATION_DEGREE", Int, false) ]
  }

  lemma OemMetaDataKinds() ensures KindsMatch(OemMetaDataFields(), OemMetaDataDescriptors()) { }
  lemma OemMetaDataTags() ensures TagsMatch(OemMetaDataFields(), OemMetaDataDescriptors()) { }
  lemma OemMetaDataNames0() ensures PlainNamesIn(OemMetaDataDescriptors(), 0, 4) { }
  lemma OemMetaDataNames4() ensures PlainNamesIn(OemMetaDataDescriptors(), 4, 8) { }
  lemma OemMetaDataNames8() ensures PlainNamesIn(OemMetaDataDescriptors(), 8, 12) { }
  lemma OemMetaDataNames12() ensures PlainNamesIn(OemMetaDataDescriptors(), 12, 13) { }
  lemma OemMetaDataNames() ensures PlainNames(OemMetaDataDescriptors()) {
    OemMetaDataNames0();
    OemMetaDataNames4();
    OemMetaDataNames8();
    OemMetaDataNames12();
    PlainNamesJoin(OemMetaDataDescriptors(), 0, 4, 8);
    PlainNamesJoin(OemMetaDataDescriptors(), 0, 8, 12);
    PlainNamesJoin(OemMetaDataDescriptors(), 0, 12, 13);
  }

  /** getODMFields on OemMetaData yields its descriptors. */
  lemma OemMetaDataSchema()
    ensures Flatten(OemMetaDataFields()) == OemMetaDataDescriptors()
  {
    OemMetaDataKinds();
    OemMetaDataTags();
    OemMetaDataNames();
    TaggedLeaves(OemMetaDataFields(), OemMetaDataDescriptors());
  }

  /** type OEM struct: header, metadata, an empty data block and an untagged Raw string. */
  function OemFields(): seq<GoField> {
    [ GoField("Header", GoStruct(OemHeaderFields()), ""),
      GoField("MetaData", GoStruct(OemMetaDataFields()), ""),
      GoField("Data", GoStruct([]), ""),
      GoField("Raw", GoString, "") ]
  }

  /** The descriptors of an OEM are those of its header followed by those of its metadata. */
  lemma OemSchema()
    ensures Flatten(OemFields()) == OemHeaderDescriptors() + OemMetaDataDescriptors()
  {
    var header := GoField("Header", GoStruct(OemHeaderFields()), "");
    var meta := GoField("MetaData", GoStruct(OemMetaDataFields()), "");
    var data := GoField("Data", GoStruct([]), "");
    var raw := GoField("Raw", GoString, "");
    FlattenFour(header, meta, data, raw);
    assert FieldDescriptors(header) == OemHeaderDescriptors() by {
      StructField("Header", OemHeaderFields(), "");
      OemHeaderSchema();
    }
    assert FieldDescriptors(meta) == OemMetaDataDescriptors() by {
      StructField("MetaData", OemMetaDataFields(), "");
      OemMetaDataSchema();
    }
    assert FieldDescriptors(data) == [] by { StructField("Data", [], ""); }
    assert FieldDescriptors(raw) == [] by { UntaggedLeaf(raw); }
    EmptyTail(OemHeaderDescriptors(), OemMetaDataDescriptors());
  }

  /** Two empty contributions after the metadata add nothing. */
  lemma EmptyTail(h: seq<Descriptor>, m: seq<Descriptor>)
    ensures h + m + [] + [] == h + m
  {
  }

  lemma OemHeaderRequired()
    ensures RequiredNames(OemHeaderDescriptors()) == ["CCSDS_OEM_VERS", "CREATION_DATE", "ORIGINATOR"]
  {
  }

  /** The required names of the metadata up to TIME_SYSTEM. */
  lemma OemIdentityRequired()
    ensures RequiredNames(OemMetaDataDescriptors()[..7]) == ["OBJECT_NAME", "OBJECT_ID", "CENTER_NAME", "REF_FRAME", "TIME_SYSTEM"]
  {
    assert OemMetaDataDescriptors()[..7] == [ Descriptor("COMMENT", Comments, false),
      Descriptor("OBJECT_NAME", Str, true),
      Descriptor("OBJECT_ID", Str, true),
      Descriptor("CENTER_NAME", Str, true),
      Descriptor("REF_FRAME", Str, true),
      Descriptor("REF_FRAME_EPOCH", Time, false),
      Descriptor("TIME_SYSTEM", Str, true) ];
  }

  /** The required names of the metadata from START_TIME on. */
  lemma OemSpanRequired()
    ensures RequiredNames(OemMetaDataDescriptors()[7..]) == ["START_TIME", "STOP_TIME"]
  {
    assert OemMetaDataDescriptors()[7..] == [ Descriptor("START_TIME", Time, true),
      Descriptor("USEABLE_START_TIME", Time, false),
      Descriptor("USEABLE_STOP_TIME", Time, false),
      Descriptor("STOP_TIME", Time, true),
      Descriptor("INTERPOLATION", Str, false),
      Descriptor("INTERPOLATION_DEGREE", Int, false) ];
  }

  lemma OemMetaDataRequired()
    ensures RequiredNames(OemMetaDataDescriptors())
      == ["OBJECT_NAME", "OBJECT_ID", "CENTER_NAME", "REF_FRAME", "TIME_SYSTEM", "START_TIME", "STOP_TIME"]
  {
    var ds := OemMetaDataDescriptors();
    assert ds == ds[..7] + ds[7..];
    RequiredNamesAppend(ds[..7], ds[7..]);
    OemIdentityRequired();
    OemSpanRequired();
  }

  /**
    The keys an OEM must carry before its data, in order: three in the
    header and seven in the metadata, START_TIME before STOP_TIME with the
    optional useable times between them.
   */
  lemma OemRequired()
    ensures RequiredNames(OemHeaderDescriptors() + OemMetaDataDescriptors())
      == ["CCSDS_OEM_VERS", "CREATION_DATE", "ORIGINATOR"]
         + ["OBJECT_NAME", "OBJECT_ID", "CENTER_NAME", "REF_FRAME", "TIME_SYSTEM", "START_TIME", "STOP_TIME"]
  {
    RequiredNamesAppend(OemHeaderDescriptors(), OemMetaDataDescriptors());
    OemHeaderRequired();
    OemMetaDataRequired();
  }
}

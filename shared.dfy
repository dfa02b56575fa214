/**
  The blocks shared by the orbit messages (shared_types.go): spacecraft
  parameters and the covariance matrix. Neither has a required entry, and
  each begins with its own COMMENT descriptor.
 */
module SharedTypes {
  import opened Schema

  /** shared_types.go, type SpacecraftParameters: every entry optional. */
  function SpacecraftParametersFields(): seq<GoField> {
    [ GoField("Comments", GoStrings, "COMMENT"),
      GoField("Mass", GoFloat, "MASS"),
      GoField("SolarRadArea", GoFloat, "SOLAR_RAD_AREA"),
      GoField("SolarRadCoeff", GoFloat, "SOLAR_RAD_COEFF"),
      GoField("DragArea", GoFloat, "DRAG_AREA"),
      GoField("DragCoeff", GoFloat, "DRAG_COEFF") ]
  }

  /** The descriptors of SpacecraftParameters, in field order. */
  function SpacecraftParametersDescriptors(): seq<Descriptor> {
    [ Descriptor("COMMENT", Comments, false),
      Descriptor("MASS", Real, false),
      Descriptor("SOLAR_RAD_AREA", Real, false),
      Descriptor("SOLAR_RAD_COEFF", Real, false),
      Descriptor("DRAG_AREA", Real, false),
      Descriptor("DRAG_COEFF", Real, false) ]
  }

  lemma SpacecraftParametersKinds() ensures KindsMatch(SpacecraftParametersFields(), SpacecraftParametersDescriptors()) { }
  lemma SpacecraftParametersTags() ensures TagsMatch(SpacecraftParametersFields(), SpacecraftParametersDescriptors()) { }
  lemma SpacecraftParametersNames0() ensures PlainNamesIn(SpacecraftParametersDescriptors(), 0, 4) { }
  lemma SpacecraftParametersNames4() ensures PlainNamesIn(SpacecraftParametersDescriptors(), 4, 6) { }
  lemma SpacecraftParametersNames() ensures PlainNames(SpacecraftParametersDescriptors()) {
    SpacecraftParametersNames0();
    SpacecraftParametersNames4();
    PlainNamesJoin(SpacecraftParametersDescriptors(), 0, 4, 6);
  }

  /** getODMFields on SpacecraftParameters yields its descriptors. */
  lemma SpacecraftParametersSchema()
    ensures Flatten(SpacecraftParametersFields()) == SpacecraftParametersDescriptors()
  {
    SpacecraftParametersKinds();
    SpacecraftParametersTags();
    SpacecraftParametersNames();
    TaggedLeaves(SpacecraftParametersFields(), SpacecraftParametersDescriptors());
  }

  /** shared_types.go, type CovarianceMatrix: the frame, then the lower triangle of the 6x6 covariance, row by row; every entry optional. */
  function CovarianceMatrixFields(): seq<GoField> {
    [ GoField("Comments", GoStrings, "COMMENT"),
      GoField("CovRefFrame", GoString, "COV_REF_FRAME"),
      GoField("CXX", GoFloat, "CX_X"),
      GoField("CYX", GoFloat, "CY_X"),
      GoField("CYY", GoFloat, "CY_Y"),
      GoField("CZX", GoFloat, "CZ_X"),
      GoField("CZY", GoFloat, "CZ_Y"),
      GoField("CZZ", GoFloat, "CZ_Z"),
      GoField("CXDOTX", GoFloat, "CX_DOT_X"),
      GoField("CXDOTY", GoFloat, "CX_DOT_Y"),
      GoField("CXDOTZ", GoFloat, "CX_DOT_Z"),
      GoField("CXDOTXDOT", GoFloat, "CX_DOT_X_DOT"),
      GoField("CYDOTX", GoFloat, "CY_DOT_X"),
      GoField("CYDOTY", GoFloat, "CY_DOT_Y"),
      GoField("CYDOTZ", GoFloat, "CY_DOT_Z"),
      GoField("CYDOTXDOT", GoFloat, "CY_DOT_X_DOT"),
      GoField("CYDOTYDOT", GoFloat, "CY_DOT_Y_DOT"),
      GoField("CZDOTX", GoFloat, "CZ_DOT_X"),
      GoField("CZDOTY", GoFloat, "CZ_DOT_Y"),
      GoField("CZDOTZ", GoFloat, "CZ_DOT_Z"),
      GoField("CZDOTXDOT", GoFloat, "CZ_DOT_X_DOT"),
      GoField("CZDOTYDOT", GoFloat, "CZ_DOT_Y_DOT"),
      GoField("CZDOTZDOT", GoFloat, "CZ_DOT_Z_DOT") ]
  }

  /** The descriptors of CovarianceMatrix, in field order. */
  function CovarianceMatrixDescriptors(): seq<Descriptor> {
    [ Descriptor("COMMENT", Comments, false),
      Descriptor("COV_REF_FRAME", Str, false),
      Descriptor("CX_X", Real, false),
      Descriptor("CY_X", Real, false),
      Descriptor("CY_Y", Real, false),
      Descriptor("CZ_X", Real, false),
      Descriptor("CZ_Y", Real, false),
      Descriptor("CZ_Z", Real, false),
      Descriptor("CX_DOT_X", Real, false),
      Descriptor("CX_DOT_Y", Real, false),
      Descriptor("CX_DOT_Z", Real, false),
      Descriptor("CX_DOT_X_DOT", Real, false),
      Descriptor("CY_DOT_X", Real, false),
      Descriptor("CY_DOT_Y", Real, false),
      Descriptor("CY_DOT_Z", Real, false),
      Descriptor("CY_DOT_X_DOT", Real, false),
      Descriptor("CY_DOT_Y_DOT", Real, false),
      Descriptor("CZ_DOT_X", Real, false),
      Descriptor("CZ_DOT_Y", Real, false),
      Descriptor("CZ_DOT_Z", Real, false),
      Descriptor("CZ_DOT_X_DOT", Real, false),
      Descriptor("CZ_DOT_Y_DOT", Real, false),
      Descriptor("CZ_DOT_Z_DOT", Real, false) ]
  }

  lemma CovarianceMatrixKinds() ensures KindsMatch(CovarianceMatrixFields(), CovarianceMatrixDescriptors()) { }
  lemma CovarianceMatrixTags() ensures TagsMatch(CovarianceMatrixFields(), CovarianceMatrixDescriptors()) { }
  lemma CovarianceMatrixNames0() ensures PlainNamesIn(CovarianceMatrixDescriptors(), 0, 4) { }
  lemma CovarianceMatrixNames4() ensures PlainNamesIn(CovarianceMatrixDescriptors(), 4, 8) { }
  lemma CovarianceMatrixNames8() ensures PlainNamesIn(CovarianceMatrixDescriptors(), 8, 12) { }
  lemma CovarianceMatrixNames12() ensures PlainNamesIn(CovarianceMatrixDescriptors(), 12, 16) { }
  lemma CovarianceMatrixNames16() ensures PlainNamesIn(CovarianceMatrixDescriptors(), 16, 20) { }
  lemma CovarianceMatrixNames20() ensures PlainNamesIn(CovarianceMatrixDescriptors(), 20, 23) { }
  lemma CovarianceMatrixNames() ensures PlainNames(CovarianceMatrixDescriptors()) {
    CovarianceMatrixNames0();
    CovarianceMatrixNames4();
    CovarianceMatrixNames8();
    CovarianceMatrixNames12();
    CovarianceMatrixNames16();
    CovarianceMatrixNames20();
    PlainNamesJoin(CovarianceMatrixDescriptors(), 0, 4, 8);
    PlainNamesJoin(CovarianceMatrixDescriptors(), 0, 8, 12);
    PlainNamesJoin(CovarianceMatrixDescriptors(), 0, 12, 16);
    PlainNamesJoin(CovarianceMatrixDescriptors(), 0, 16, 20);
    PlainNamesJoin(CovarianceMatrixDescriptors(), 0, 20, 23);
  }

  /** getODMFields on CovarianceMatrix yields its descriptors. */
  lemma CovarianceMatrixSchema()
    ensures Flatten(CovarianceMatrixFields()) == CovarianceMatrixDescriptors()
  {
    CovarianceMatrixKinds();
    CovarianceMatrixTags();
    CovarianceMatrixNames();
    TaggedLeaves(CovarianceMatrixFields(), CovarianceMatrixDescriptors());
  }

  /** Every entry of both shared blocks is optional, so either block may be absent altogether. */
  lemma SharedBlocksOptional()
    ensures forall k | 0 <= k < |SpacecraftParametersDescriptors()| :: !SpacecraftParametersDescriptors()[k].required
    ensures forall k | 0 <= k < |CovarianceMatrixDescriptors()| :: !CovarianceMatrixDescriptors()[k].required
  {
  }
}

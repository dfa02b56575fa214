/**
  The schema directory: the `odm` struct tags of the message types, read by
  parseOdmTag, and the ordered list of field descriptors that getODMFields
  builds from a struct type by walking its fields in declaration order.
  Reflection is replaced by an explicit description of the Go types involved.
 */
module Schema {
  import opened Wrappers
  import opened GoStrings

  /** The Go field types that occur in the message structs. */
  datatype GoType =
    | GoString
    | GoInt
    | GoFloat
    | GoTime                           // time.Time: a struct, but read as one value
    | GoStrings                        // []string
    | GoMap                            // map[string]string
    | GoStruct(fields: seq<GoField>)   // a nested struct, expanded in place
    | GoStructSlice(elem: seq<GoField>) // a slice of structs: a repeated group

  /** A struct field: its Go name, its type and the value of its `odm` tag ("" when it has none). */
  datatype GoField = GoField(name: string, typ: GoType, tag: string)

  /** How a descriptor's value is read from a token. */
  datatype Kind =
    | Str
    | Int
    | Real
    | Time
    | Comments                         // every consecutive token with the key
    | Unsupported                      // a tagged field of a kind the decoder rejects
    | Repeated(template: seq<Descriptor>)

  /** One entry of the flattened field list: the key it expects, how it is read, whether it must be present. */
  datatype Descriptor = Descriptor(name: string, kind: Kind, required: bool)

  predicate IsLeaf(t: GoType) {
    !t.GoStruct? && !t.GoStructSlice?
  }

  /** The kind the decoder dispatches on for a field of a leaf type. */
  function LeafKind(t: GoType): (k: Kind)
    requires IsLeaf(t)
    ensures !k.Repeated?
  {
    match t
    case GoString => Str
    case GoInt => Int
    case GoFloat => Real
    case GoTime => Time
    case GoStrings => Comments
    case GoMap => Unsupported
  }

  /**
    parseOdmTag: an empty tag gives no name; otherwise the name is the text
    before the first ',' and the field is required exactly when the text
    between the first and the second ',' is "required".
   */
  function ParseOdmTag(tag: string): (r: (string, bool))
    ensures |r.0| <= |tag|
  {
    if tag == "" then ("", false)
    else
      var parts := Split(tag, ",");
      (parts[0], |parts| > 1 && parts[1] == "required")
  }

  /** A tag without a comma is the name of an optional field. */
  lemma OdmTagPlain(name: string)
    requires ',' !in name
    ensures ParseOdmTag(name) == (name, false)
  {
    if name != "" {
      SplitWithout(name, ',');
    }
  }

  /**
    A tag with options: the name is what precedes the first comma, and the
    field is required exactly when the first option is "required", whatever
    options follow it.
   */
  lemma OdmTagOption(name: string, opt: string, rest: string)
    requires ',' !in name && ',' !in opt && (rest == "" || rest[0] == ',')
    ensures ParseOdmTag(name + "," + opt + rest) == (name, opt == "required")
  {
    var tag := name + "," + opt + rest;
    assert Split(tag, ",") == [name] + Split(opt + rest, ",") by {
      assert tag == name + [','] + (opt + rest);
      SplitAfterPiece(name, ',', opt + rest);
    }
    assert Split(opt + rest, ",")[0] == opt by {
      if rest == "" {
        assert opt + rest == opt;
        SplitWithout(opt, ',');
      } else {
        assert opt + rest == opt + [','] + rest[1..];
        SplitAfterPiece(opt, ',', rest[1..]);
      }
    }
    assert tag != "" by { assert tag[|name|] == ','; }
  }


  /**
    The descriptors one field contributes: a nested struct is expanded in
    place, a slice of structs becomes one optional repeated descriptor named
    after the Go field, and any other field with a non-empty tag name becomes
    one descriptor; a field whose tag gives no name contributes nothing.
   */
  function FieldDescriptors(f: GoField): seq<Descriptor>
    decreases f, 1
  {
    match f.typ
    case GoStruct(sub) => Flatten(sub)
    case GoStructSlice(sub) => [Descriptor(f.name, Repeated(Flatten(sub)), false)]
    case _ =>
      var (name, required) := ParseOdmTag(f.tag);
      if name == "" then [] else [Descriptor(name, LeafKind(f.typ), required)]
  }

  /** The preorder flattening of a struct's fields, in declaration order. */
  function Flatten(fields: seq<GoField>): seq<Descriptor>
    decreases fields, 0
  {
    if fields == [] then [] else FieldDescriptors(fields[0]) + Flatten(fields[1..])
  }

  /**
    getODMFields: one pass over the fields, appending each field's
    descriptors, recursing into nested structs.
   */
  method GetOdmFields(fields: seq<GoField>) returns (r: seq<Descriptor>)
    ensures r == Flatten(fields)
    decreases fields, 1
  {
    r := [];
    var i := 0;
    while i < |fields|
      invariant 0 <= i <= |fields|
      invariant Flatten(fields) == r + Flatten(fields[i..])
    {
      var own := FieldOdmFields(fields[i]);
      var rest := Flatten(fields[i + 1..]);
      FlattenStep(fields, i);
      assert r + (own + rest) == (r + own) + rest;
      r := r + own;
      i := i + 1;
    }
    assert fields[i..] == [];
    assert r + [] == r;
  }

  /** The flattening of a suffix of the fields starts with its first field's descriptors. */
  lemma FlattenStep(fields: seq<GoField>, i: nat)
    requires i < |fields|
    ensures Flatten(fields[i..]) == FieldDescriptors(fields[i]) + Flatten(fields[i + 1..])
  {
    assert fields[i..][0] == fields[i] && fields[i..][1..] == fields[i + 1..];
  }

  /** The body of the loop of getODMFields for one field. */
  method FieldOdmFields(f: GoField) returns (own: seq<Descriptor>)
    ensures own == FieldDescriptors(f)
    decreases f, 0
  {
    match f.typ {
      case GoStruct(sub) =>
        own := GetOdmFields(sub);
      case GoStructSlice(sub) =>
        var template := GetOdmFields(sub);
        own := [Descriptor(f.name, Repeated(template), false)];
      case _ =>
        var (name, required) := ParseOdmTag(f.tag);
        own := if name != "" then [Descriptor(name, LeafKind(f.typ), required)] else [];
    }
  }

  /** Flattening distributes over the concatenation of field lists. */
  lemma {:induction false} FlattenAppend(a: seq<GoField>, b: seq<GoField>)
    ensures Flatten(a + b) == Flatten(a) + Flatten(b)
  {
    if a == [] {
      assert a + b == b;
    } else {
      assert (a + b)[0] == a[0] && (a + b)[1..] == a[1..] + b;
      FlattenAppend(a[1..], b);
    }
  }

  /** A list of fields each contributing exactly one descriptor flattens to those descriptors. */
  lemma {:induction false} FlattenLeaves(fields: seq<GoField>, ds: seq<Descriptor>)
    requires |fields| == |ds|
    requires forall k | 0 <= k < |fields| :: FieldDescriptors(fields[k]) == [ds[k]]
    ensures Flatten(fields) == ds
  {
    if fields != [] {
      FlattenLeaves(fields[1..], ds[1..]);
      assert ds == [ds[0]] + ds[1..];
    }
  }

  /** A repeated descriptor produced by flattening is never required. */
  lemma {:induction false} RepeatedOptional(fields: seq<GoField>)
    ensures forall k | 0 <= k < |Flatten(fields)| :: Flatten(fields)[k].kind.Repeated? ==> !Flatten(fields)[k].required
    decreases fields, 0
  {
    if fields != [] {
      FieldRepeatedOptional(fields[0]);
      RepeatedOptional(fields[1..]);
    }
  }

  lemma {:induction false} FieldRepeatedOptional(f: GoField)
    ensures forall k | 0 <= k < |FieldDescriptors(f)| :: FieldDescriptors(f)[k].kind.Repeated? ==> !FieldDescriptors(f)[k].required
    decreases f, 1
  {
    if f.typ.GoStruct? {
      RepeatedOptional(f.typ.fields);
    }
  }

  /** A leaf field tagged `name` gives one optional descriptor of its kind. */
  lemma OptionalLeaf(f: GoField, name: string)
    requires IsLeaf(f.typ) && f.tag == name && ',' !in name && name != ""
    ensures FieldDescriptors(f) == [Descriptor(name, LeafKind(f.typ), false)]
  {
    OdmTagPlain(name);
  }

  /** A leaf field tagged `name,required` gives one required descriptor of its kind. */
  lemma RequiredLeaf(f: GoField, name: string)
    requires IsLeaf(f.typ) && f.tag == name + RequiredOption && ',' !in name && name != ""
    ensures FieldDescriptors(f) == [Descriptor(name, LeafKind(f.typ), true)]
  {
    OdmTagOption(name, "required", "");
    assert name + "," + "required" + "" == name + RequiredOption;
  }

  /** A field without an `odm` tag, or of a map type without one, contributes nothing. */
  lemma UntaggedLeaf(f: GoField)
    requires IsLeaf(f.typ) && f.tag == ""
    ensures FieldDescriptors(f) == []
  {
  }

  /** How a descriptor is written as an `odm` tag: its name, followed by ",required" when it is required. */
  function TagOf(d: Descriptor): string {
    if d.required then d.name + RequiredOption else d.name
  }

  /** The option that marks a field as required, comma included. */
  const RequiredOption: string := ",required"

  /** A leaf field tagged as a descriptor says contributes exactly that descriptor. */
  lemma LeafDescriptor(f: GoField, d: Descriptor)
    requires IsLeaf(f.typ) && d.kind == LeafKind(f.typ) && f.tag == TagOf(d) && d.name != "" && ',' !in d.name
    ensures FieldDescriptors(f) == [d]
  {
    if d.required {
      RequiredLeaf(f, d.name);
    } else {
      OptionalLeaf(f, d.name);
    }
  }

  /** The fields are leaves of the kinds the descriptors give, in the same order. */
  predicate KindsMatch(fields: seq<GoField>, ds: seq<Descriptor>) {
    |fields| == |ds| && forall k | 0 <= k < |fields| :: IsLeaf(fields[k].typ) && ds[k].kind == LeafKind(fields[k].typ)
  }

  /** Each field carries the tag its descriptor is written as. */
  predicate TagsMatch(fields: seq<GoField>, ds: seq<Descriptor>) {
    |fields| == |ds| && forall k | 0 <= k < |fields| :: fields[k].tag == TagOf(ds[k])
  }

  /** Every descriptor name is non-empty and free of commas, so that it survives parseOdmTag. */
  predicate PlainNames(ds: seq<Descriptor>) {
    PlainNamesIn(ds, 0, |ds|)
  }

  /** The descriptors from `lo` up to `hi` have plain names. */
  predicate PlainNamesIn(ds: seq<Descriptor>, lo: nat, hi: nat)
    requires lo <= hi <= |ds|
  {
    forall k | lo <= k < hi :: ds[k].name != "" && ',' !in ds[k].name
  }

  /** Two adjacent ranges of plain names make one. */
  lemma PlainNamesJoin(ds: seq<Descriptor>, lo: nat, mid: nat, hi: nat)
    requires lo <= mid <= hi <= |ds|
    requires PlainNamesIn(ds, lo, mid) && PlainNamesIn(ds, mid, hi)
    ensures PlainNamesIn(ds, lo, hi)
  {
  }

  /** The fields of a struct are all leaves, tagged as the descriptors `ds` say, in the same order. */
  predicate Describes(fields: seq<GoField>, ds: seq<Descriptor>) {
    KindsMatch(fields, ds) && TagsMatch(fields, ds) && PlainNames(ds)
  }

  /** A struct whose fields the descriptors describe flattens to exactly those descriptors. */
  lemma TaggedLeaves(fields: seq<GoField>, ds: seq<Descriptor>)
    requires Describes(fields, ds)
    ensures Flatten(fields) == ds
  {
    forall k | 0 <= k < |fields|
      ensures FieldDescriptors(fields[k]) == [ds[k]]
    {
      LeafDescriptor(fields[k], ds[k]);
    }
    FlattenLeaves(fields, ds);
  }

  /** One step of the flattening: the field at `k` contributes first, then the fields after it. */
  lemma FlattenFrom(fields: seq<GoField>, k: nat)
    requires k < |fields|
    ensures Flatten(fields[k..]) == FieldDescriptors(fields[k]) + Flatten(fields[k + 1..])
  {
    assert fields[k..][0] == fields[k] && fields[k..][1..] == fields[k + 1..];
  }

  /** A struct of one field flattens to what that field contributes. */
  lemma FlattenOne(f: GoField)
    ensures Flatten([f]) == FieldDescriptors(f)
  {
    assert [f][1..] == [];
    assert FieldDescriptors(f) + [] == FieldDescriptors(f);
  }

  /** A field placed in front of others contributes its descriptors first. */
  lemma FlattenCons(f: GoField, rest: seq<GoField>)
    ensures Flatten([f] + rest) == FieldDescriptors(f) + Flatten(rest)
  {
    assert ([f] + rest)[0] == f && ([f] + rest)[1..] == rest;
  }

  /** A nested struct field contributes the flattening of its own fields. */
  lemma StructField(name: string, sub: seq<GoField>, tag: string)
    ensures FieldDescriptors(GoField(name, GoStruct(sub), tag)) == Flatten(sub)
  {
  }

  /** A struct of four fields flattens to what each contributes, in order. */
  lemma FlattenFour(a: GoField, b: GoField, c: GoField, d: GoField)
    ensures Flatten([a, b, c, d]) == FieldDescriptors(a) + FieldDescriptors(b) + FieldDescriptors(c) + FieldDescriptors(d)
  {
    assert [a, b, c, d] == [a] + ([b] + ([c] + [d]));
    FlattenOne(d);
    FlattenCons(c, [d]);
    FlattenCons(b, [c] + [d]);
    FlattenCons(a, [b] + ([c] + [d]));
  }

  /** A struct of five fields flattens to what each contributes, in order. */
  lemma FlattenFive(a: GoField, b: GoField, c: GoField, d: GoField, e: GoField)
    ensures Flatten([a, b, c, d, e]) == FieldDescriptors(a) + FieldDescriptors(b) + FieldDescriptors(c) + FieldDescriptors(d) + FieldDescriptors(e)
  {
    assert [a, b, c, d, e] == [a] + [b, c, d, e];
    FlattenFour(b, c, d, e);
    FlattenCons(a, [b, c, d, e]);
  }

  /** Regrouping the descriptors of a message whose third struct holds four blocks. */
  lemma Regroup(a: seq<Descriptor>, b: seq<Descriptor>, c: seq<Descriptor>, d: seq<Descriptor>, e: seq<Descriptor>, f: seq<Descriptor>)
    ensures a + b + (c + d + e + f) + [] == a + b + c + d + e + f
  {
  }
}

/**
  The ordered matching decoder (populateODMFields): a single cursor runs
  forward over the tokens while the descriptors are visited in order. A
  required descriptor must find its key under the cursor; an optional one
  whose key is not there is skipped without consuming anything; a matched
  descriptor reads its value and advances the cursor.

  The values written are returned as a map from the position of the
  descriptor in the list to the value read; a position without an entry
  keeps Go's zero value.
 */
module Decoder {
  import opened Wrappers
  import opened GoStrconv
  import opened Kvn
  import opened Timestamps
  import opened Schema

  /** A value read for one descriptor. */
  datatype Value =
    | VStr(s: string)
    | VInt(n: int)
    | VReal(x: real)
    | VTime(t: Instant)
    | VStrings(items: seq<string>)
    | VInstances(instances: seq<map<nat, Value>>)

  datatype DecodeError =
    | MissingKey(expected: string)               // a required key, and no token left
    | KeyMismatch(expected: string, got: string) // a required key, and another key under the cursor
    | IntSyntax(value: string)                   // strconv.Atoi rejected the value
    | RealSyntax(value: string)                  // the float parser rejected the value
    | TimeSyntax(key: string)                    // parseTime rejected the value of this key
    | UnsupportedKind(name: string)              // a tagged field of a kind the decoder does not handle
    | Panic                                      // a Go runtime panic: index out of range, or a reflect type clash
    | Diverges                                   // the repeated-group loop would run forever

  /** The outcome of a pass: the values written and where the cursor stopped. */
  datatype Decoded = Decoded(values: map<nat, Value>, cursor: nat)

  /** The outcome of one instance of a repeated group. */
  datatype Step =
    | Stopped(cursor: nat)                              // a template field did not match: the instance is dropped
    | Completed(fields: map<nat, Value>, cursor: nat)   // every template field was visited

  /**
    The comment loop `for kvs[kvIndex].Key == name`: it appends the values of
    the consecutive tokens with the key, and, having no bounds check, panics
    when those tokens run to the end of the input.
   */
  function CommentRun(kvs: seq<KV>, c: nat, name: string, acc: seq<string>): (r: Result<(seq<string>, nat), DecodeError>)
    requires c <= |kvs|
    ensures r.Ok? ==> c <= r.value.1 < |kvs|
    decreases |kvs| - c
  {
    if c == |kvs| then Err(DecodeError.Panic)
    else if kvs[c].key != name then Ok((acc, c))
    else CommentRun(kvs, c + 1, name, acc + [kvs[c].value])
  }

  /**
    Reading the token under the cursor for a descriptor with its key: a
    scalar takes one token, a comment list the whole run of the key. A
    repeated group reached here is a slice of structs that would be sent a
    string, which panics in reflect.
   */
  function ReadField(d: Descriptor, kvs: seq<KV>, c: nat, pr: string -> Option<real>): (r: Result<(Value, nat), DecodeError>)
    requires c < |kvs| && kvs[c].key == d.name
  {
    var v := kvs[c].value;
    match d.kind
    case Str => Ok((VStr(v), c + 1))
    case Int =>
      (match Atoi(v)
       case None => Err(IntSyntax(v))
       case Some(n) => Ok((VInt(n), c + 1)))
    case Real =>
      (match pr(v)
       case None => Err(RealSyntax(v))
       case Some(x) => Ok((VReal(x), c + 1)))
    case Time =>
      (match ParseTime(v)
       case Err(fault) => if fault.Malformed? then Err(TimeSyntax(d.name)) else Err(DecodeError.Panic)
       case Ok(t) => Ok((VTime(t), c + 1)))
    case Comments =>
      (match CommentRun(kvs, c, d.name, [])
       case Err(e) => Err(e)
       case Ok((items, c2)) => Ok((VStrings(items), c2)))
    case Unsupported => Err(UnsupportedKind(d.name))
    case Repeated(_) => Err(DecodeError.Panic)
  }

  /**
    One pass of the inner loop over the template of a repeated group, from
    template field `j` with the instance built so far: the pass stops at the
    end of the input or at a template field other than COMMENT whose key is
    not under the cursor; a COMMENT field whose key is not there is skipped.
   */
  function DecodeInstance(ts: seq<Descriptor>, j: nat, kvs: seq<KV>, c: nat, inst: map<nat, Value>, pr: string -> Option<real>)
    : (r: Result<Step, DecodeError>)
    requires j <= |ts| && c <= |kvs|
    ensures r.Ok? ==> c <= r.value.cursor <= |kvs|
    decreases |ts| - j
  {
    if j == |ts| then Ok(Completed(inst, c))
    else if c == |kvs| then Ok(Stopped(c))
    else if ts[j].name != kvs[c].key && ts[j].name != "COMMENT" then Ok(Stopped(c))
    else if ts[j].name != kvs[c].key then DecodeInstance(ts, j + 1, kvs, c, inst, pr)
    else
      match ReadField(ts[j], kvs, c, pr)
      case Err(e) => Err(e)
      case Ok((v, c2)) => DecodeInstance(ts, j + 1, kvs, c2, inst[j := v], pr)
  }

  /**
    The outer loop of a repeated group: instances are decoded one after
    another and each completed one is appended; the first stopped instance
    ends the group, its tokens consumed but its fields dropped. A completed
    instance that consumed nothing would repeat forever.
   */
  function RepeatGroup(ts: seq<Descriptor>, kvs: seq<KV>, c: nat, insts: seq<map<nat, Value>>, pr: string -> Option<real>)
    : (r: Result<(seq<map<nat, Value>>, nat), DecodeError>)
    requires c <= |kvs|
    ensures r.Ok? ==> c <= r.value.1 <= |kvs|
    decreases |kvs| - c
  {
    match DecodeInstance(ts, 0, kvs, c, map[], pr)
    case Err(e) => Err(e)
    case Ok(Stopped(c2)) => Ok((insts, c2))
    case Ok(Completed(inst, c2)) =>
      if c2 == c then Err(Diverges) else RepeatGroup(ts, kvs, c2, insts + [inst], pr)
  }

  /**
    The main loop from descriptor `i` with the cursor at `c`. A repeated
    group runs whatever the key under the cursor; if that key was the
    group's own name, the slice branch that follows indexes the tokens
    again, which panics at the end of the input or when the key repeats.
   */
  function DecodeFrom(ds: seq<Descriptor>, i: nat, kvs: seq<KV>, c: nat, out: map<nat, Value>, pr: string -> Option<real>)
    : (r: Result<Decoded, DecodeError>)
    requires i <= |ds| && c <= |kvs|
    ensures r.Ok? ==> c <= r.value.cursor <= |kvs|
    decreases |ds| - i
  {
    if i == |ds| then Ok(Decoded(out, c))
    else if c == |kvs| then
      if ds[i].required then Err(MissingKey(ds[i].name)) else DecodeFrom(ds, i + 1, kvs, c, out, pr)
    else if ds[i].name != kvs[c].key && ds[i].required then Err(KeyMismatch(ds[i].name, kvs[c].key))
    else if ds[i].kind.Repeated? then
      match RepeatGroup(ds[i].kind.template, kvs, c, [], pr)
      case Err(e) => Err(e)
      case Ok((insts, c2)) =>
        if ds[i].name == kvs[c].key && (c2 == |kvs| || kvs[c2].key == ds[i].name) then Err(DecodeError.Panic)
        else DecodeFrom(ds, i + 1, kvs, c2, if insts == [] then out else out[i := VInstances(insts)], pr)
    else if ds[i].name != kvs[c].key then DecodeFrom(ds, i + 1, kvs, c, out, pr)
    else
      match ReadField(ds[i], kvs, c, pr)
      case Err(e) => Err(e)
      case Ok((v, c2)) => DecodeFrom(ds, i + 1, kvs, c2, out[i := v], pr)
  }

  /** The specification of populateODMFields: the main loop from the first descriptor and the first token. */
  function Decode(ds: seq<Descriptor>, kvs: seq<KV>, pr: string -> Option<real>): (r: Result<Decoded, DecodeError>)
    ensures r.Ok? ==> r.value.cursor <= |kvs|
  {
    DecodeFrom(ds, 0, kvs, 0, map[], pr)
  }

  /** The comment loop, appending one value per matching token. */
  method ReadComments(kvs: seq<KV>, c0: nat, name: string) returns (r: Result<(seq<string>, nat), DecodeError>)
    requires c0 <= |kvs|
    ensures r == CommentRun(kvs, c0, name, [])
  {
    var items: seq<string> := [];
    var c: nat := c0;
    while c < |kvs| && kvs[c].key == name
      invariant c0 <= c <= |kvs|
      invariant CommentRun(kvs, c0, name, []) == CommentRun(kvs, c, name, items)
      decreases |kvs| - c
    {
      items := items + [kvs[c].value];
      c := c + 1;
    }
    if c == |kvs| {
      return Err(DecodeError.Panic);
    }
    r := Ok((items, c));
  }

  /** The switch on the field's kind, for a token carrying the field's key. */
  method ReadValue(d: Descriptor, kvs: seq<KV>, c: nat, pr: string -> Option<real>) returns (r: Result<(Value, nat), DecodeError>)
    requires c < |kvs| && kvs[c].key == d.name
    ensures r == ReadField(d, kvs, c, pr)
  {
    var v := kvs[c].value;
    match d.kind {
      case Str =>
        r := Ok((VStr(v), c + 1));
      case Int =>
        var n := Atoi(v);
        if n.None? {
          return Err(IntSyntax(v));
        }
        r := Ok((VInt(n.value), c + 1));
      case Real =>
        var x := pr(v);
        if x.None? {
          return Err(RealSyntax(v));
        }
        r := Ok((VReal(x.value), c + 1));
      case Time =>
        var t := ParseTime(v);
        if t.Err? {
          return if t.error.Panic? then Err(DecodeError.Panic) else Err(TimeSyntax(d.name));
        }
        r := Ok((VTime(t.value), c + 1));
      case Comments =>
        var run := ReadComments(kvs, c, d.name);
        if run.Err? {
          return Err(run.error);
        }
        r := Ok((VStrings(run.value.0), run.value.1));
      case Unsupported =>
        r := Err(UnsupportedKind(d.name));
      case Repeated(_) =>
        r := Err(DecodeError.Panic);
    }
  }

  /** The inner loop of a repeated group: one instance built from the template. */
  method ReadInstance(ts: seq<Descriptor>, kvs: seq<KV>, c0: nat, pr: string -> Option<real>) returns (r: Result<Step, DecodeError>)
    requires c0 <= |kvs|
    ensures r == DecodeInstance(ts, 0, kvs, c0, map[], pr)
  {
    var inst: map<nat, Value> := map[];
    var c: nat := c0;
    var j: nat := 0;
    while j < |ts|
      invariant j <= |ts| && c <= |kvs|
      invariant DecodeInstance(ts, 0, kvs, c0, map[], pr) == DecodeInstance(ts, j, kvs, c, inst, pr)
    {
      if c == |kvs| {
        return Ok(Stopped(c));
      }
      if ts[j].name != kvs[c].key && ts[j].name != "COMMENT" {
        return Ok(Stopped(c));
      }
      if ts[j].name == kvs[c].key {
        var read := ReadValue(ts[j], kvs, c, pr);
        if read.Err? {
          return Err(read.error);
        }
        inst := inst[j := read.value.0];
        c := read.value.1;
      }
      j := j + 1;
    }
    r := Ok(Completed(inst, c));
  }

  /** The outer loop of a repeated group: instances until one stops. */
  method ReadGroup(ts: seq<Descriptor>, kvs: seq<KV>, c0: nat, pr: string -> Option<real>)
    returns (r: Result<(seq<map<nat, Value>>, nat), DecodeError>)
    requires c0 <= |kvs|
    ensures r == RepeatGroup(ts, kvs, c0, [], pr)
  {
    var insts: seq<map<nat, Value>> := [];
    var c: nat := c0;
    while true
      invariant c <= |kvs|
      invariant RepeatGroup(ts, kvs, c0, [], pr) == RepeatGroup(ts, kvs, c, insts, pr)
      decreases |kvs| - c
    {
      var step := ReadInstance(ts, kvs, c, pr);
      if step.Err? {
        return Err(step.error);
      }
      match step.value {
        case Stopped(c2) =>
          return Ok((insts, c2));
        case Completed(inst, c2) =>
          if c2 == c {
            return Err(Diverges);
          }
          insts := insts + [inst];
          c := c2;
      }
    }
  }

  /** populateODMFields: the main loop over the descriptors with one forward cursor. */
  method PopulateFields(ds: seq<Descriptor>, kvs: seq<KV>, pr: string -> Option<real>) returns (r: Result<Decoded, DecodeError>)
    ensures r == Decode(ds, kvs, pr)
  {
    var out: map<nat, Value> := map[];
    var c: nat := 0;
    var i: nat := 0;
    while i < |ds|
      invariant i <= |ds| && c <= |kvs|
      invariant Decode(ds, kvs, pr) == DecodeFrom(ds, i, kvs, c, out, pr)
    {
      var d := ds[i];
      if c == |kvs| {
        if d.required {
          return Err(MissingKey(d.name));
        }
        i := i + 1;
        continue;
      }
      var key := kvs[c].key;
      if d.name != key && d.required {
        return Err(KeyMismatch(d.name, key));
      }
      if d.kind.Repeated? {
        var group := ReadGroup(d.kind.template, kvs, c, pr);
        if group.Err? {
          return Err(group.error);
        }
        var (insts, c2) := group.value;
        if insts != [] {
          out := out[i := VInstances(insts)];
        }
        c := c2;
        if d.name == key && (c == |kvs| || kvs[c].key == d.name) {
          return Err(DecodeError.Panic);
        }
      } else if d.name == key {
        var read := ReadValue(d, kvs, c, pr);
        if read.Err? {
          return Err(read.error);
        }
        out := out[i := read.value.0];
        c := read.value.1;
      }
      i := i + 1;
    }
    r := Ok(Decoded(out, c));
  }

  /* ---------------------------------------------------------------------
     What a successful pass promises
     --------------------------------------------------------------------- */

  /**
    A value is of the type of the Go field its descriptor stands for: an
    int in the range of Go's int, an instant with its fields in range, and a
    repeated group holds at least one instance whose fields fit the template.
   */
  predicate Fits(k: Kind, v: Value) {
    if k.Repeated? then v.VInstances? && v.instances != [] && InstancesFit(k.template, v.instances)
    else LeafFits(k, v)
  }

  /** The type of a scalar or comment field; a template holds nothing else. */
  predicate LeafFits(k: Kind, v: Value) {
    match k
    case Str => v.VStr?
    case Int => v.VInt? && MinInt64 <= v.n <= MaxInt64
    case Real => v.VReal?
    case Time => v.VTime? && ValidInstant(v.t)
    case Comments => v.VStrings?
    case Unsupported => false
    case Repeated(_) => false
  }

  /** Every field of an instance is a field of the template, of its type. */
  predicate InstanceFits(ts: seq<Descriptor>, inst: map<nat, Value>) {
    forall j :: j in inst ==> j < |ts| && LeafFits(ts[j].kind, inst[j])
  }

  predicate InstancesFit(ts: seq<Descriptor>, insts: seq<map<nat, Value>>) {
    forall m :: 0 <= m < |insts| ==> InstanceFits(ts, insts[m])
  }

  /** Reading a field gives a value of its type and consumes the token under the cursor; a scalar consumes only that token. */
  lemma ReadFieldFits(d: Descriptor, kvs: seq<KV>, c: nat, pr: string -> Option<real>)
    requires c < |kvs| && kvs[c].key == d.name && ReadField(d, kvs, c, pr).Ok?
    ensures LeafFits(d.kind, ReadField(d, kvs, c, pr).value.0)
    ensures c < ReadField(d, kvs, c, pr).value.1 <= |kvs|
    ensures !d.kind.Comments? ==> ReadField(d, kvs, c, pr).value.1 == c + 1
  {
    if d.kind.Time? {
      ParseTimeValid(kvs[c].value);
    }
  }

  /** The comment loop stops on the first token with another key, having collected the values of the run in order; it panics exactly when the run reaches the end of the input. */
  lemma {:induction false} CommentRunSpec(kvs: seq<KV>, c: nat, name: string, acc: seq<string>)
    requires c <= |kvs|
    ensures CommentRun(kvs, c, name, acc).Err? <==> forall p :: c <= p < |kvs| ==> kvs[p].key == name
    ensures CommentRun(kvs, c, name, acc).Ok? ==>
      var c2 := CommentRun(kvs, c, name, acc).value.1;
      kvs[c2].key != name &&
      (forall p :: c <= p < c2 ==> kvs[p].key == name) &&
      CommentRun(kvs, c, name, acc).value.0 == acc + Values(kvs[c..c2])
    decreases |kvs| - c
  {
    if c < |kvs| && kvs[c].key == name {
      CommentRunSpec(kvs, c + 1, name, acc + [kvs[c].value]);
      if CommentRun(kvs, c, name, acc).Ok? {
        var c2 := CommentRun(kvs, c, name, acc).value.1;
        assert Values(kvs[c..c2]) == [kvs[c].value] + Values(kvs[c + 1..c2]);
      }
    } else if c < |kvs| {
      assert kvs[c..c] == [];
    }
  }

  /** The values of a run of tokens, in order. */
  function Values(kvs: seq<KV>): (r: seq<string>)
    ensures |r| == |kvs| && forall p :: 0 <= p < |kvs| ==> r[p] == kvs[p].value
  {
    seq(|kvs|, p requires 0 <= p < |kvs| => kvs[p].value)
  }

  /** The keys of the tokens, in order. */
  function Keys(kvs: seq<KV>): (r: seq<string>)
    ensures |r| == |kvs| && forall p :: 0 <= p < |kvs| ==> r[p] == kvs[p].key
  {
    seq(|kvs|, p requires 0 <= p < |kvs| => kvs[p].key)
  }

  /** One instance of a repeated group only holds values of its template's types. */
  lemma {:induction false} DecodeInstanceFits(ts: seq<Descriptor>, j: nat, kvs: seq<KV>, c: nat, inst: map<nat, Value>, pr: string -> Option<real>)
    requires j <= |ts| && c <= |kvs|
    requires InstanceFits(ts, inst) && forall k :: k in inst ==> k < j
    requires DecodeInstance(ts, j, kvs, c, inst, pr).Ok? && DecodeInstance(ts, j, kvs, c, inst, pr).value.Completed?
    ensures InstanceFits(ts, DecodeInstance(ts, j, kvs, c, inst, pr).value.fields)
    decreases |ts| - j
  {
    if j == |ts| || c == |kvs| {
    } else if ts[j].name != kvs[c].key {
      DecodeInstanceFits(ts, j + 1, kvs, c, inst, pr);
    } else {
      ReadFieldFits(ts[j], kvs, c, pr);
      var (v, c2) := ReadField(ts[j], kvs, c, pr).value;
      DecodeInstanceFits(ts, j + 1, kvs, c2, inst[j := v], pr);
    }
  }

  /**
    A repeated group extends the instances it was given with instances of
    its template's types, and never more of them than the tokens it consumed.
   */
  lemma {:induction false} RepeatGroupFits(ts: seq<Descriptor>, kvs: seq<KV>, c: nat, insts: seq<map<nat, Value>>, pr: string -> Option<real>)
    requires c <= |kvs| && RepeatGroup(ts, kvs, c, insts, pr).Ok? && InstancesFit(ts, insts)
    ensures var r := RepeatGroup(ts, kvs, c, insts, pr).value;
      insts <= r.0 && |r.0| - |insts| <= r.1 - c && InstancesFit(ts, r.0)
    decreases |kvs| - c
  {
    var step := DecodeInstance(ts, 0, kvs, c, map[], pr).value;
    if step.Completed? {
      DecodeInstanceFits(ts, 0, kvs, c, map[], pr);
      var more := insts + [step.fields];
      assert InstancesFit(ts, more) by {
        forall m | 0 <= m < |more|
          ensures InstanceFits(ts, more[m])
        {
          if m < |insts| {
            assert more[m] == insts[m];
          }
        }
      }
      RepeatGroupFits(ts, kvs, step.cursor, more, pr);
    }
  }

  /** Every field of the template other than COMMENT has a value in the instance. */
  predicate Complete(ts: seq<Descriptor>, inst: map<nat, Value>) {
    forall k :: 0 <= k < |ts| && ts[k].name != "COMMENT" ==> k in inst
  }

  /**
    An instance completes only when each template field from `j` on other
    than COMMENT was read, on top of the fields read before: a field that
    does not match stops the instance instead.
   */
  lemma {:induction false} DecodeInstanceComplete(ts: seq<Descriptor>, j: nat, kvs: seq<KV>, c: nat, inst: map<nat, Value>, pr: string -> Option<real>)
    requires j <= |ts| && c <= |kvs|
    requires DecodeInstance(ts, j, kvs, c, inst, pr).Ok? && DecodeInstance(ts, j, kvs, c, inst, pr).value.Completed?
    ensures var fields := DecodeInstance(ts, j, kvs, c, inst, pr).value.fields;
      (forall k :: k in inst ==> k in fields) &&
      forall k :: j <= k < |ts| && ts[k].name != "COMMENT" ==> k in fields
    decreases |ts| - j
  {
    if j < |ts| {
      if ts[j].name != kvs[c].key {
        DecodeInstanceComplete(ts, j + 1, kvs, c, inst, pr);
      } else {
        var (v, c2) := ReadField(ts[j], kvs, c, pr).value;
        DecodeInstanceComplete(ts, j + 1, kvs, c2, inst[j := v], pr);
      }
    }
  }

  /**
    A repeated group appends only complete instances to those it was given,
    and ends where the instance that stopped it stopped: that instance
    started at or after `c`, and the tokens it read before stopping stay
    consumed although its fields are dropped.
   */
  lemma {:induction false} RepeatGroupComplete(ts: seq<Descriptor>, kvs: seq<KV>, c: nat, insts: seq<map<nat, Value>>, pr: string -> Option<real>)
    requires c <= |kvs| && RepeatGroup(ts, kvs, c, insts, pr).Ok?
    ensures var r := RepeatGroup(ts, kvs, c, insts, pr).value;
      insts <= r.0 && (forall m :: |insts| <= m < |r.0| ==> Complete(ts, r.0[m])) &&
      exists s :: c <= s <= r.1 && DecodeInstance(ts, 0, kvs, s, map[], pr) == Ok(Stopped(r.1))
    decreases |kvs| - c
  {
    var r := RepeatGroup(ts, kvs, c, insts, pr).value;
    var step := DecodeInstance(ts, 0, kvs, c, map[], pr).value;
    if step.Completed? {
      DecodeInstanceComplete(ts, 0, kvs, c, map[], pr);
      var more := insts + [step.fields];
      RepeatGroupComplete(ts, kvs, step.cursor, more, pr);
      assert r == RepeatGroup(ts, kvs, step.cursor, more, pr).value;
      forall m | |insts| <= m < |r.0|
        ensures Complete(ts, r.0[m])
      {
        if m == |insts| {
          assert r.0[m] == more[m];
        }
      }
    } else {
      assert DecodeInstance(ts, 0, kvs, c, map[], pr) == Ok(Stopped(r.1));
    }
  }

  /**
    A pass from descriptor `i` keeps what was written before, writes only
    values of the descriptors' types, and writes every required scalar
    descriptor it visits.
   */
  lemma {:induction false} DecodeFromSound(ds: seq<Descriptor>, i: nat, kvs: seq<KV>, c: nat, out: map<nat, Value>, pr: string -> Option<real>, res: Decoded)
    requires i <= |ds| && c <= |kvs| && DecodeFrom(ds, i, kvs, c, out, pr) == Ok(res)
    requires forall k :: k in out ==> k < i && Fits(ds[k].kind, out[k])
    ensures forall k :: k in res.values ==> k < |ds| && Fits(ds[k].kind, res.values[k])
    ensures forall k :: k in out ==> k in res.values && res.values[k] == out[k]
    ensures forall k :: i <= k < |ds| && ds[k].required && !ds[k].kind.Repeated? ==> k in res.values
    decreases |ds| - i
  {
    if i == |ds| {
    } else if c == |kvs| {
      DecodeFromSound(ds, i + 1, kvs, c, out, pr, res);
    } else if ds[i].kind.Repeated? {
      var (insts, c2) := RepeatGroup(ds[i].kind.template, kvs, c, [], pr).value;
      var out2 := if insts == [] then out else out[i := VInstances(insts)];
      GroupOutFits(ds, i, kvs, c, out, pr);
      DecodeFromSound(ds, i + 1, kvs, c2, out2, pr, res);
    } else if ds[i].name != kvs[c].key {
      DecodeFromSound(ds, i + 1, kvs, c, out, pr, res);
    } else {
      ReadFieldFits(ds[i], kvs, c, pr);
      var (v, c2) := ReadField(ds[i], kvs, c, pr).value;
      DecodeFromSound(ds, i + 1, kvs, c2, out[i := v], pr, res);
    }
  }

  /** The values after a repeated group still fit their descriptors. */
  lemma GroupOutFits(ds: seq<Descriptor>, i: nat, kvs: seq<KV>, c: nat, out: map<nat, Value>, pr: string -> Option<real>)
    requires i < |ds| && c < |kvs| && ds[i].kind.Repeated? && RepeatGroup(ds[i].kind.template, kvs, c, [], pr).Ok?
    requires forall k :: k in out ==> k < i && Fits(ds[k].kind, out[k])
    ensures var (insts, c2) := RepeatGroup(ds[i].kind.template, kvs, c, [], pr).value;
      var out2 := if insts == [] then out else out[i := VInstances(insts)];
      forall k :: k in out2 ==> k < i + 1 && Fits(ds[k].kind, out2[k])
  {
    var ts := ds[i].kind.template;
    RepeatGroupFits(ts, kvs, c, [], pr);
    var insts := RepeatGroup(ts, kvs, c, [], pr).value.0;
    if insts != [] {
      assert Fits(ds[i].kind, VInstances(insts));
    }
  }

  /**
    After a successful pass every value written is of its field's type and
    every required scalar field has been written.
   */
  lemma DecodeSound(ds: seq<Descriptor>, kvs: seq<KV>, pr: string -> Option<real>)
    requires Decode(ds, kvs, pr).Ok?
    ensures var vs := Decode(ds, kvs, pr).value.values;
      (forall k :: k in vs ==> k < |ds| && Fits(ds[k].kind, vs[k])) &&
      (forall k :: 0 <= k < |ds| && ds[k].required && !ds[k].kind.Repeated? ==> k in vs)
  {
    DecodeFromSound(ds, 0, kvs, 0, map[], pr, Decode(ds, kvs, pr).value);
  }

  /* ---------------------------------------------------------------------
     Required keys must appear, in the order of the descriptors
     --------------------------------------------------------------------- */

  /** The names of the required descriptors, in order. */
  function RequiredNames(ds: seq<Descriptor>): (r: seq<string>)
    ensures |r| <= |ds|
  {
    if ds == [] then [] else RequiredName(ds[0]) + RequiredNames(ds[1..])
  }

  /** The name of a descriptor if it is required. */
  function RequiredName(d: Descriptor): seq<string> {
    if d.required then [d.name] else []
  }

  /** The required names of a concatenation are those of its parts, in order. */
  lemma {:induction false} RequiredNamesAppend(a: seq<Descriptor>, b: seq<Descriptor>)
    ensures RequiredNames(a + b) == RequiredNames(a) + RequiredNames(b)
    decreases |a|
  {
    if a == [] {
      assert a + b == b;
    } else {
      assert (a + b)[1..] == a[1..] + b;
      RequiredNamesAppend(a[1..], b);
    }
  }

  /** A list of optional descriptors names nothing required. */
  lemma {:induction false} RequiredNamesNone(ds: seq<Descriptor>)
    requires forall k | 0 <= k < |ds| :: !ds[k].required
    ensures RequiredNames(ds) == []
    decreases |ds|
  {
    if ds != [] {
      RequiredNamesNone(ds[1..]);
    }
  }

  /** `a` can be obtained from `b` by deleting elements (matched greedily, which loses nothing). */
  predicate IsSubseq(a: seq<string>, b: seq<string>)
    decreases |b|
  {
    if a == [] then true
    else if b == [] then false
    else if a[0] == b[0] then IsSubseq(a[1..], b[1..])
    else IsSubseq(a, b[1..])
  }

  lemma {:induction false} SubseqTail(a: seq<string>, b: seq<string>)
    requires a != [] && IsSubseq(a, b)
    ensures IsSubseq(a[1..], b)
    decreases |b|, 1
  {
    if a[0] == b[0] {
      SubseqCons(a[1..], b);
    } else {
      SubseqTail(a, b[1..]);
      SubseqCons(a[1..], b);
    }
  }

  lemma {:induction false} SubseqCons(a: seq<string>, b: seq<string>)
    requires b != [] && IsSubseq(a, b[1..])
    ensures IsSubseq(a, b)
    decreases |b|, 0
  {
    if a != [] && a[0] == b[0] {
      SubseqTail(a, b[1..]);
    }
  }

  /** A subsequence of a suffix is a subsequence of the whole. */
  lemma {:induction false} SubseqDrop(a: seq<string>, b: seq<string>, k: nat)
    requires k <= |b| && IsSubseq(a, b[k..])
    ensures IsSubseq(a, b)
    decreases k
  {
    if k > 0 {
      assert b[k - 1..][1..] == b[k..];
      SubseqCons(a, b[k - 1..]);
      SubseqDrop(a, b, k - 1);
    } else {
      assert b[0..] == b;
    }
  }

  /** Every element of a subsequence is an element of the whole. */
  lemma {:induction false} SubseqMember(a: seq<string>, b: seq<string>, x: string)
    requires IsSubseq(a, b) && x in a
    ensures x in b
    decreases |b|
  {
    if a[0] == b[0] {
      if x != a[0] {
        assert x in a[1..];
        SubseqMember(a[1..], b[1..], x);
      }
    } else {
      SubseqMember(a, b[1..], x);
    }
  }

  lemma RequiredStep(ds: seq<Descriptor>, i: nat)
    requires i < |ds|
    ensures RequiredNames(ds[i..]) == RequiredName(ds[i]) + RequiredNames(ds[i + 1..])
  {
    assert ds[i..][1..] == ds[i + 1..];
  }

  /** A required name found under the cursor, followed by the rest further on. */
  lemma MatchRequired(name: string, rest: seq<string>, ks: seq<string>, c: nat, c2: nat)
    requires c < c2 <= |ks| && ks[c] == name && IsSubseq(rest, ks[c2..])
    ensures IsSubseq([name] + rest, ks[c..])
  {
    assert ks[c + 1..][c2 - c - 1..] == ks[c2..];
    SubseqDrop(rest, ks[c + 1..], c2 - c - 1);
    assert ([name] + rest)[1..] == rest;
    assert ks[c..][1..] == ks[c + 1..];
  }

  lemma {:induction false} DecodeFromKeys(ds: seq<Descriptor>, i: nat, kvs: seq<KV>, c: nat, out: map<nat, Value>, pr: string -> Option<real>)
    requires i <= |ds| && c <= |kvs| && DecodeFrom(ds, i, kvs, c, out, pr).Ok?
    ensures IsSubseq(RequiredNames(ds[i..]), Keys(kvs)[c..])
    decreases |ds| - i
  {
    var ks := Keys(kvs);
    if i == |ds| {
      assert ds[i..] == [];
    } else {
      if c == |kvs| {
        RequiredStep(ds, i);
        DecodeFromKeys(ds, i + 1, kvs, c, out, pr);
      } else {
        var c2: nat, out2;
        if ds[i].kind.Repeated? {
          var (insts, cg) := RepeatGroup(ds[i].kind.template, kvs, c, [], pr).value;
          c2, out2 := cg, if insts == [] then out else out[i := VInstances(insts)];
        } else if ds[i].name != kvs[c].key {
          c2, out2 := c, out;
        } else {
          ReadFieldFits(ds[i], kvs, c, pr);
          var (v, cr) := ReadField(ds[i], kvs, c, pr).value;
          c2, out2 := cr, out[i := v];
        }
        assert DecodeFrom(ds, i, kvs, c, out, pr) == DecodeFrom(ds, i + 1, kvs, c2, out2, pr);
        DecodeFromKeys(ds, i + 1, kvs, c2, out2, pr);
        assert ds[i].required ==> c < c2 && ks[c] == ds[i].name;
        KeysStep(ds, i, ks, c, c2);
      }
    }
  }

  /** One descriptor further: a required one must have been found under the cursor. */
  lemma KeysStep(ds: seq<Descriptor>, i: nat, ks: seq<string>, c: nat, c2: nat)
    requires i < |ds| && c <= c2 <= |ks| && IsSubseq(RequiredNames(ds[i + 1..]), ks[c2..])
    requires ds[i].required ==> c < c2 && ks[c] == ds[i].name
    ensures IsSubseq(RequiredNames(ds[i..]), ks[c..])
  {
    RequiredStep(ds, i);
    assert ks[c..][c2 - c..] == ks[c2..];
    if ds[i].required {
      MatchRequired(ds[i].name, RequiredNames(ds[i + 1..]), ks, c, c2);
    } else {
      assert RequiredNames(ds[i..]) == RequiredNames(ds[i + 1..]);
      SubseqDrop(RequiredNames(ds[i + 1..]), ks[c..], c2 - c);
    }
  }

  /**
    A successful pass has found every required key among the tokens, in
    the order of the descriptors: the required names are a subsequence of
    the keys.
   */
  lemma DecodeFindsRequired(ds: seq<Descriptor>, kvs: seq<KV>, pr: string -> Option<real>)
    requires Decode(ds, kvs, pr).Ok?
    ensures IsSubseq(RequiredNames(ds), Keys(kvs))
  {
    DecodeFromKeys(ds, 0, kvs, 0, map[], pr);
    assert ds[0..] == ds && Keys(kvs)[0..] == Keys(kvs);
  }

  lemma {:induction false} RequiredNamed(ds: seq<Descriptor>, k: nat)
    requires k < |ds| && ds[k].required
    ensures ds[k].name in RequiredNames(ds)
    decreases k
  {
    if k > 0 {
      assert ds[1..][k - 1] == ds[k];
      RequiredNamed(ds[1..], k - 1);
    }
  }

  /** A required key that no token carries makes the pass fail. */
  lemma RequiredAbsentFails(ds: seq<Descriptor>, kvs: seq<KV>, pr: string -> Option<real>, k: nat)
    requires k < |ds| && ds[k].required
    requires forall p :: 0 <= p < |kvs| ==> kvs[p].key != ds[k].name
    ensures Decode(ds, kvs, pr).Err?
  {
    if Decode(ds, kvs, pr).Ok? {
      DecodeFindsRequired(ds, kvs, pr);
      RequiredNamed(ds, k);
      SubseqMember(RequiredNames(ds), Keys(kvs), ds[k].name);
      assert false;
    }
  }

  /* ---------------------------------------------------------------------
     Optional descriptors, structural errors, and no lookahead
     --------------------------------------------------------------------- */

  /**
    Optional scalar descriptors whose key is not under the cursor are passed
    over: nothing is consumed and nothing is written, so a key that comes
    early is taken by its own descriptor and those jumped over keep their
    zero values.
   */
  lemma {:induction false} SkipAbsentOptional(ds: seq<Descriptor>, i: nat, k: nat, kvs: seq<KV>, c: nat, out: map<nat, Value>, pr: string -> Option<real>)
    requires i <= k <= |ds| && c < |kvs|
    requires forall j :: i <= j < k ==> !ds[j].required && !ds[j].kind.Repeated? && ds[j].name != kvs[c].key
    ensures DecodeFrom(ds, i, kvs, c, out, pr) == DecodeFrom(ds, k, kvs, c, out, pr)
    decreases k - i
  {
    if i < k {
      SkipAbsentOptional(ds, i + 1, k, kvs, c, out, pr);
    }
  }

  /** Once the tokens have run out, the remaining optional descriptors are all skipped and the pass succeeds. */
  lemma {:induction false} OptionalAtEnd(ds: seq<Descriptor>, i: nat, kvs: seq<KV>, out: map<nat, Value>, pr: string -> Option<real>)
    requires i <= |ds|
    requires forall j :: i <= j < |ds| ==> !ds[j].required
    ensures DecodeFrom(ds, i, kvs, |kvs|, out, pr) == Ok(Decoded(out, |kvs|))
    decreases |ds| - i
  {
    if i < |ds| {
      OptionalAtEnd(ds, i + 1, kvs, out, pr);
    }
  }

  /** A structural error: a required key that was not found. */
  predicate Structural(e: DecodeError) {
    e.MissingKey? || e.KeyMismatch?
  }

  /** Reading one value fails only on the value itself, never on a key. */
  lemma ReadFieldNotStructural(d: Descriptor, kvs: seq<KV>, c: nat, pr: string -> Option<real>)
    requires c < |kvs| && kvs[c].key == d.name && ReadField(d, kvs, c, pr).Err?
    ensures !Structural(ReadField(d, kvs, c, pr).error)
  {
    if d.kind.Comments? {
      CommentRunNotStructural(kvs, c, d.name, []);
    }
  }

  lemma {:induction false} CommentRunNotStructural(kvs: seq<KV>, c: nat, name: string, acc: seq<string>)
    requires c <= |kvs| && CommentRun(kvs, c, name, acc).Err?
    ensures CommentRun(kvs, c, name, acc).error == DecodeError.Panic
    decreases |kvs| - c
  {
    if c < |kvs| && kvs[c].key == name {
      CommentRunNotStructural(kvs, c + 1, name, acc + [kvs[c].value]);
    }
  }

  lemma {:induction false} DecodeInstanceNotStructural(ts: seq<Descriptor>, j: nat, kvs: seq<KV>, c: nat, inst: map<nat, Value>, pr: string -> Option<real>)
    requires j <= |ts| && c <= |kvs| && DecodeInstance(ts, j, kvs, c, inst, pr).Err?
    ensures !Structural(DecodeInstance(ts, j, kvs, c, inst, pr).error)
    decreases |ts| - j
  {
    if ts[j].name != kvs[c].key {
      DecodeInstanceNotStructural(ts, j + 1, kvs, c, inst, pr);
    } else if ReadField(ts[j], kvs, c, pr).Err? {
      ReadFieldNotStructural(ts[j], kvs, c, pr);
    } else {
      var (v, c2) := ReadField(ts[j], kvs, c, pr).value;
      DecodeInstanceNotStructural(ts, j + 1, kvs, c2, inst[j := v], pr);
    }
  }

  /** Inside a repeated group a missing field ends the group; it is never an error. */
  lemma {:induction false} RepeatGroupNotStructural(ts: seq<Descriptor>, kvs: seq<KV>, c: nat, insts: seq<map<nat, Value>>, pr: string -> Option<real>)
    requires c <= |kvs| && RepeatGroup(ts, kvs, c, insts, pr).Err?
    ensures !Structural(RepeatGroup(ts, kvs, c, insts, pr).error)
    decreases |kvs| - c
  {
    var step := DecodeInstance(ts, 0, kvs, c, map[], pr);
    if step.Err? {
      DecodeInstanceNotStructural(ts, 0, kvs, c, map[], pr);
    } else if step.value.Completed? && step.value.cursor != c {
      RepeatGroupNotStructural(ts, kvs, step.value.cursor, insts + [step.value.fields], pr);
    }
  }

  /**
    A structural error names as expected the key of a required descriptor
    still to be visited; a mismatch names as found a different key, carried
    by a token at or after the cursor.
   */
  lemma {:induction false} DecodeFromErrorNames(ds: seq<Descriptor>, i: nat, kvs: seq<KV>, c: nat, out: map<nat, Value>, pr: string -> Option<real>)
    requires i <= |ds| && c <= |kvs| && DecodeFrom(ds, i, kvs, c, out, pr).Err?
    ensures var e := DecodeFrom(ds, i, kvs, c, out, pr).error;
      Structural(e) ==> exists j :: i <= j < |ds| && ds[j].required && ds[j].name == e.expected
    ensures var e := DecodeFrom(ds, i, kvs, c, out, pr).error;
      e.KeyMismatch? ==> e.got != e.expected && exists p :: c <= p < |kvs| && kvs[p].key == e.got
    decreases |ds| - i
  {
    var e := DecodeFrom(ds, i, kvs, c, out, pr).error;
    if c == |kvs| {
      if !ds[i].required {
        DecodeFromErrorNames(ds, i + 1, kvs, c, out, pr);
      }
    } else if ds[i].name != kvs[c].key && ds[i].required {
    } else if ds[i].kind.Repeated? {
      var group := RepeatGroup(ds[i].kind.template, kvs, c, [], pr);
      if group.Err? {
        RepeatGroupNotStructural(ds[i].kind.template, kvs, c, [], pr);
      } else {
        var (insts, c2) := group.value;
        if !(ds[i].name == kvs[c].key && (c2 == |kvs| || kvs[c2].key == ds[i].name)) {
          DecodeFromErrorNames(ds, i + 1, kvs, c2, if insts == [] then out else out[i := VInstances(insts)], pr);
        }
      }
    } else if ds[i].name != kvs[c].key {
      DecodeFromErrorNames(ds, i + 1, kvs, c, out, pr);
    } else if ReadField(ds[i], kvs, c, pr).Err? {
      ReadFieldNotStructural(ds[i], kvs, c, pr);
    } else {
      ReadFieldFits(ds[i], kvs, c, pr);
      var (v, c2) := ReadField(ds[i], kvs, c, pr).value;
      DecodeFromErrorNames(ds, i + 1, kvs, c2, out[i := v], pr);
    }
  }

  /** A comment run that ended on another key reads the same with more tokens after it. */
  lemma {:induction false} CommentRunExtend(kvs: seq<KV>, rest: seq<KV>, c: nat, name: string, acc: seq<string>)
    requires c <= |kvs| && CommentRun(kvs, c, name, acc).Ok?
    ensures CommentRun(kvs + rest, c, name, acc) == CommentRun(kvs, c, name, acc)
    decreases |kvs| - c
  {
    if kvs[c].key == name {
      CommentRunExtend(kvs, rest, c + 1, name, acc + [kvs[c].value]);
    }
  }

  /** Reading a value looks at no token after the ones it consumes, or after the one that ends a comment run. */
  lemma ReadFieldExtend(d: Descriptor, kvs: seq<KV>, rest: seq<KV>, c: nat, pr: string -> Option<real>)
    requires c < |kvs| && kvs[c].key == d.name && ReadField(d, kvs, c, pr).Ok?
    ensures ReadField(d, kvs + rest, c, pr) == ReadField(d, kvs, c, pr)
  {
    if d.kind.Comments? {
      CommentRunExtend(kvs, rest, c, d.name, []);
    }
  }

  lemma {:induction false} DecodeInstanceExtend(ts: seq<Descriptor>, j: nat, kvs: seq<KV>, rest: seq<KV>, c: nat, inst: map<nat, Value>, pr: string -> Option<real>)
    requires j <= |ts| && c <= |kvs| && DecodeInstance(ts, j, kvs, c, inst, pr).Ok?
    requires DecodeInstance(ts, j, kvs, c, inst, pr).value.cursor < |kvs|
    ensures DecodeInstance(ts, j, kvs + rest, c, inst, pr) == DecodeInstance(ts, j, kvs, c, inst, pr)
    decreases |ts| - j
  {
    if j == |ts| || (ts[j].name != kvs[c].key && ts[j].name != "COMMENT") {
    } else if ts[j].name != kvs[c].key {
      DecodeInstanceExtend(ts, j + 1, kvs, rest, c, inst, pr);
    } else {
      ReadFieldExtend(ts[j], kvs, rest, c, pr);
      var (v, c2) := ReadField(ts[j], kvs, c, pr).value;
      DecodeInstanceExtend(ts, j + 1, kvs, rest, c2, inst[j := v], pr);
    }
  }

  lemma {:induction false} RepeatGroupExtend(ts: seq<Descriptor>, kvs: seq<KV>, rest: seq<KV>, c: nat, insts: seq<map<nat, Value>>, pr: string -> Option<real>)
    requires c <= |kvs| && RepeatGroup(ts, kvs, c, insts, pr).Ok? && RepeatGroup(ts, kvs, c, insts, pr).value.1 < |kvs|
    ensures RepeatGroup(ts, kvs + rest, c, insts, pr) == RepeatGroup(ts, kvs, c, insts, pr)
    decreases |kvs| - c
  {
    var step := DecodeInstance(ts, 0, kvs, c, map[], pr).value;
    if step.Completed? {
      RepeatGroupExtend(ts, kvs, rest, step.cursor, insts + [step.fields], pr);
    }
    DecodeInstanceExtend(ts, 0, kvs, rest, c, map[], pr);
  }

  lemma {:induction false} DecodeFromExtend(ds: seq<Descriptor>, i: nat, kvs: seq<KV>, rest: seq<KV>, c: nat, out: map<nat, Value>, pr: string -> Option<real>)
    requires i <= |ds| && c <= |kvs| && DecodeFrom(ds, i, kvs, c, out, pr).Ok?
    requires DecodeFrom(ds, i, kvs, c, out, pr).value.cursor < |kvs|
    ensures DecodeFrom(ds, i, kvs + rest, c, out, pr) == DecodeFrom(ds, i, kvs, c, out, pr)
    decreases |ds| - i
  {
    if i == |ds| {
    } else if ds[i].kind.Repeated? {
      var (insts, c2) := RepeatGroup(ds[i].kind.template, kvs, c, [], pr).value;
      DecodeFromExtend(ds, i + 1, kvs, rest, c2, if insts == [] then out else out[i := VInstances(insts)], pr);
      RepeatGroupExtend(ds[i].kind.template, kvs, rest, c, [], pr);
    } else if ds[i].name != kvs[c].key {
      DecodeFromExtend(ds, i + 1, kvs, rest, c, out, pr);
    } else {
      ReadFieldFits(ds[i], kvs, c, pr);
      var (v, c2) := ReadField(ds[i], kvs, c, pr).value;
      DecodeFromExtend(ds, i + 1, kvs, rest, c2, out[i := v], pr);
      ReadFieldExtend(ds[i], kvs, rest, c, pr);
    }
  }

  /**
    The decoder never looks ahead: a pass that succeeded with tokens left
    over gives the same values and stops at the same token whatever follows
    the tokens it was given.
   */
  lemma DecodeIgnoresTrailing(ds: seq<Descriptor>, kvs: seq<KV>, rest: seq<KV>, pr: string -> Option<real>)
    requires Decode(ds, kvs, pr).Ok? && Decode(ds, kvs, pr).value.cursor < |kvs|
    ensures Decode(ds, kvs + rest, pr) == Decode(ds, kvs, pr)
  {
    DecodeFromExtend(ds, 0, kvs, rest, 0, map[], pr);
  }

  /** An integer field takes its value from strconv.Atoi, leading zeros and all. */
  lemma DecodeIntExample(pr: string -> Option<real>)
    ensures Decode([Descriptor("NORAD_CAT_ID", Int, true)], [KV("NORAD_CAT_ID", "0925")], pr)
         == Ok(Decoded(map[0 := VInt(925)], 1))
  {
    AtoiZeroPadded();
  }
  /**
    Wherever the pass stands, a required descriptor facing a token with
    another key stops it with a mismatch naming both keys, whatever was
    decoded before.
   */
  lemma DecodeMismatchAt(ds: seq<Descriptor>, i: nat, kvs: seq<KV>, c: nat, out: map<nat, Value>, pr: string -> Option<real>)
    requires i < |ds| && c < |kvs| && ds[i].required && ds[i].name != kvs[c].key
    ensures DecodeFrom(ds, i, kvs, c, out, pr) == Err(KeyMismatch(ds[i].name, kvs[c].key))
  {
  }

  /**
    Wherever the pass stands, a required descriptor reached when the tokens
    are used up stops it with the error naming its key.
   */
  lemma DecodeMissingAt(ds: seq<Descriptor>, i: nat, kvs: seq<KV>, out: map<nat, Value>, pr: string -> Option<real>)
    requires i < |ds| && ds[i].required
    ensures DecodeFrom(ds, i, kvs, |kvs|, out, pr) == Err(MissingKey(ds[i].name))
  {
  }

  /**
    A repeated group of (COMMENT, A, B): two instances complete, the second
    with its comment; the third reads A and stops at X, so its A is consumed
    but dropped and the cursor stays after it.
   */
  lemma RepeatGroupExample(pr: string -> Option<real>)
    ensures var ts := [Descriptor("COMMENT", Comments, false), Descriptor("A", Str, false), Descriptor("B", Str, false)];
      var kvs := [KV("A", "1"), KV("B", "2"), KV("COMMENT", "c"), KV("A", "3"), KV("B", "4"), KV("A", "5"), KV("X", "6")];
      RepeatGroup(ts, kvs, 0, [], pr)
        == Ok(([map[1 := VStr("1"), 2 := VStr("2")], map[0 := VStrings(["c"]), 1 := VStr("3"), 2 := VStr("4")]], 6))
  {
    var ts := [Descriptor("COMMENT", Comments, false), Descriptor("A", Str, false), Descriptor("B", Str, false)];
    var kvs := [KV("A", "1"), KV("B", "2"), KV("COMMENT", "c"), KV("A", "3"), KV("B", "4"), KV("A", "5"), KV("X", "6")];
    var first := map[1 := VStr("1"), 2 := VStr("2")];
    var second := map[0 := VStrings(["c"]), 1 := VStr("3"), 2 := VStr("4")];
    assert DecodeInstance(ts, 0, kvs, 0, map[], pr) == Ok(Completed(first, 2)) by {
      assert DecodeInstance(ts, 2, kvs, 1, map[1 := VStr("1")], pr) == Ok(Completed(first, 2));
    }
    assert DecodeInstance(ts, 0, kvs, 2, map[], pr) == Ok(Completed(second, 5)) by {
      assert CommentRun(kvs, 2, "COMMENT", []) == Ok((["c"], 3)) by {
        assert [] + [kvs[2].value] == ["c"];
        assert CommentRun(kvs, 3, "COMMENT", ["c"]) == Ok((["c"], 3));
      }
      assert DecodeInstance(ts, 1, kvs, 3, map[0 := VStrings(["c"])], pr) == Ok(Completed(second, 5));
    }
    assert DecodeInstance(ts, 0, kvs, 5, map[], pr) == Ok(Stopped(6)) by {
      assert DecodeInstance(ts, 2, kvs, 6, map[1 := VStr("5")], pr) == Ok(Stopped(6));
    }
    assert RepeatGroup(ts, kvs, 5, [first, second], pr) == Ok(([first, second], 6));
    assert [first] + [second] == [first, second];
    assert RepeatGroup(ts, kvs, 2, [first], pr) == Ok(([first, second], 6));
    assert [] + [first] == [first];
  }
}

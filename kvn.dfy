/**
  The Keyword=Value Notation lexer (utils.go:13-88): choose the line ending,
  split the trimmed text into lines, drop the empty ones and turn every other
  line into a (key, value) token.
 */
module Kvn {
  import opened Wrappers
  import opened GoStrings

  const CR: string := "\r"
  const LF: string := "\n"
  const CRLF: string := "\r\n"
  const LFCR: string := "\n\r"

  /** One token: a keyword and its value, units already removed. */
  datatype KV = KV(key: string, value: string)

  datatype LexError =
    | EmptyLine                 // a line that is blank once trimmed
    | MalformedLine(line: string)  // neither a COMMENT line nor a line with '='

  /** The first of CRLF, LFCR, CR found in the text, LF otherwise. */
  function DetectLineEnding(raw: string): (e: string)
    ensures e == CRLF <==> Contains(raw, CRLF)
    ensures e == LFCR <==> !Contains(raw, CRLF) && Contains(raw, LFCR)
    ensures e == CR <==> !Contains(raw, CRLF) && !Contains(raw, LFCR) && Contains(raw, CR)
    ensures e == LF <==> !Contains(raw, CRLF) && !Contains(raw, LFCR) && !Contains(raw, CR)
  {
    if Contains(raw, CRLF) then CRLF
    else if Contains(raw, LFCR) then LFCR
    else if Contains(raw, CR) then CR
    else LF
  }

  /** Text without a carriage return is always split on LF. */
  lemma NoCarriageReturnMeansLF(raw: string)
    requires '\r' !in raw
    ensures DetectLineEnding(raw) == LF
  {
    ContainsChar(raw, '\r');
    if Contains(raw, CRLF) {
      ContainsElement(raw, CRLF, 0);
    }
    if Contains(raw, LFCR) {
      ContainsElement(raw, LFCR, 1);
    }
  }

  /**
    Removes one trailing unit annotation: when the value ends in ']' and holds a
    '[', what comes before the last '[' (trimmed); otherwise the value unchanged.
   */
  function StripUnit(value: string): (r: string)
    ensures |r| <= |value|
    ensures r == value <==> !(HasSuffix(value, "]") && '[' in value)
  {
    match LastIndexOfChar(value, '[')
    case Some(u) =>
      if HasSuffix(value, "]") then TrimSpace(value[..u]) else value
    case None => value
  }

  /**
    parseLine: a trimmed line starting with COMMENT is a comment token whose value
    is the trimmed rest; otherwise the line is split at its first '=' into a
    trimmed key and a trimmed value with its unit removed.
   */
  function ParseLine(line: string): (r: Result<KV, LexError>)
    ensures r == Err(EmptyLine) <==> TrimSpace(line) == []
  {
    var t := TrimSpace(line);
    if t == [] then Err(EmptyLine)
    else if HasPrefix(t, "COMMENT") then Ok(KV("COMMENT", TrimSpace(t[7..])))
    else
      match Index(t, "=")
      case None => Err(MalformedLine(t))
      case Some(k) => Ok(KV(TrimSpace(t[..k]), StripUnit(TrimSpace(t[k + 1..]))))
  }

  /** Nothing before the first occurrence of a character is that character. */
  lemma BeforeFirstOccurrence(t: string, c: char)
    requires Index(t, [c]).Some?
    ensures c !in t[..Index(t, [c]).value]
  {
    var k := Index(t, [c]).value;
    if c in t[..k] {
      var j :| 0 <= j < k && t[..k][j] == c;
      assert OccursAt(t, [c], j);
    }
  }

  /**
    A line is rejected exactly when it is blank once trimmed, or when it is
    neither a COMMENT line nor holds an '='.
   */
  lemma ParseLineFails(line: string)
    ensures var t := TrimSpace(line);
      ParseLine(line).Err? <==> t == [] || (!HasPrefix(t, "COMMENT") && '=' !in t)
    ensures var t := TrimSpace(line);
      ParseLine(line).Err? ==> ParseLine(line).error == (if t == [] then EmptyLine else MalformedLine(t))
  {
    ContainsChar(TrimSpace(line), '=');
  }

  /** The key of an accepted line is COMMENT or holds no '='. */
  lemma ParseLineKey(line: string)
    requires ParseLine(line).Ok?
    ensures var key := ParseLine(line).value.key;
      key == "COMMENT" || '=' !in key
  {
    var t := TrimSpace(line);
    if !HasPrefix(t, "COMMENT") {
      var k := Index(t, "=").value;
      BeforeFirstOccurrence(t, '=');
      TrimSpaceAvoids(t[..k], '=');
    }
  }

  /**
    A token that can be written as one line: its key is COMMENT, or a trimmed,
    non-empty key without '=' that does not start with COMMENT; its value is
    trimmed, does not look like a value with a unit, and neither holds a line
    break.
   */
  predicate Writable(kv: KV) {
    && Trimmed(kv.value) && kv.value != []
    && !(HasSuffix(kv.value, "]") && '[' in kv.value)
    && '\n' !in kv.value && '\r' !in kv.value
    && (kv.key == "COMMENT" ||
        (&& Trimmed(kv.key) && kv.key != [] && '=' !in kv.key && !HasPrefix(kv.key, "COMMENT")
         && '\n' !in kv.key && '\r' !in kv.key))
  }

  /** A token written as a KVN line: `COMMENT text` or `KEY = value`. */
  function FormatLine(kv: KV): string {
    if kv.key == "COMMENT" then "COMMENT " + kv.value else kv.key + " = " + kv.value
  }

  /** A trimmed line that starts with COMMENT is a comment token. */
  lemma ParseCommentLine(line: string)
    requires Trimmed(line) && HasPrefix(line, "COMMENT")
    ensures ParseLine(line) == Ok(KV("COMMENT", TrimSpace(line[7..])))
  {
    TrimSpaceOfTrimmed(line);
  }

  /** A trimmed line that is not a comment is split at its first '='. */
  lemma ParseKeyValueLine(line: string, k: nat)
    requires Trimmed(line) && !HasPrefix(line, "COMMENT")
    requires k < |line| && line[k] == '=' && '=' !in line[..k]
    ensures ParseLine(line) == Ok(KV(TrimSpace(line[..k]), StripUnit(TrimSpace(line[k + 1..]))))
  {
    assert TrimSpace(line) == line by { TrimSpaceOfTrimmed(line); }
    assert Index(line, "=") == Some(k) by { IndexOfFirst(line, '=', k); }
  }

  /** Text after a key that does not start with COMMENT, from a blank on, does not start with COMMENT either. */
  lemma NotCommentAfterBlank(k: string, rest: string)
    requires !HasPrefix(k, "COMMENT") && rest != [] && rest[0] == ' '
    ensures !HasPrefix(k + rest, "COMMENT")
  {
    if |k| >= 7 {
      assert (k + rest)[..7] == k[..7];
    } else {
      assert (k + rest)[|k|] == ' ';
    }
  }

  /** Where the pieces of `key = value` sit. */
  lemma KeyValuePieces(k: string, v: string)
    ensures var line := k + " = " + v;
      |line| == |k| + 3 + |v| && line[..|k| + 1] == k + " " && line[|k| + 1] == '=' && line[|k| + 2..] == " " + v
  {
  }

  /** A written comment line is read back as a comment token with its text. */
  lemma ParseWrittenComment(v: string)
    requires Trimmed(v) && v != []
    ensures ParseLine("COMMENT " + v) == Ok(KV("COMMENT", v))
  {
    var line := "COMMENT " + v;
    assert Trimmed(line) by { TrimmedConcat("COMMENT ", v); }
    assert line[..7] == "COMMENT" && line[7..] == " " + v;
    assert ParseLine(line) == Ok(KV("COMMENT", TrimSpace(" " + v))) by { ParseCommentLine(line); }
    assert TrimSpace(" " + v) == v by { TrimSpaceLeadingBlank(v); }
  }

  /** A written `key = value` line is trimmed, is not a comment, and has its first '=' right after the key and a blank. */
  lemma KeyValueLineShape(k: string, w: string)
    requires Trimmed(k) && k != [] && '=' !in k && !HasPrefix(k, "COMMENT") && Trimmed(w) && w != []
    ensures var line := k + " = " + w;
      && Trimmed(line) && !HasPrefix(line, "COMMENT")
      && |k| + 1 < |line| && line[|k| + 1] == '=' && '=' !in line[..|k| + 1]
      && line[..|k| + 1] == k + " " && line[|k| + 2..] == " " + w
  {
    var line := k + " = " + w;
    TrimmedConcat(k, " = " + w);
    NotCommentAfterBlank(k, " = " + w);
    KeyValuePieces(k, w);
    assert '=' !in k + " ";
  }

  /** A written `key = value` line is read back as that key and the value with its unit removed. */
  lemma ParseWrittenKeyValue(k: string, w: string)
    requires Trimmed(k) && k != [] && '=' !in k && !HasPrefix(k, "COMMENT") && Trimmed(w) && w != []
    ensures ParseLine(k + " = " + w) == Ok(KV(k, StripUnit(w)))
  {
    var line := k + " = " + w;
    KeyValueLineShape(k, w);
    ParseKeyValueLine(line, |k| + 1);
    assert TrimSpace(k + " ") == k by { TrimSpaceTrailingBlank(k); }
    assert TrimSpace(" " + w) == w by { TrimSpaceLeadingBlank(w); }
  }

  /** Reading a written line gives back the token. */
  lemma ParseFormatLine(kv: KV)
    requires Writable(kv)
    ensures ParseLine(FormatLine(kv)) == Ok(kv)
  {
    if kv.key == "COMMENT" {
      ParseWrittenComment(kv.value);
    } else {
      ParseWrittenKeyValue(kv.key, kv.value);
    }
  }

  /** The last '[' of `v [unit]` is the one before the unit when the unit holds none. */
  lemma UnitBracket(v: string, unit: string)
    requires '[' !in unit
    ensures var w := v + " [" + unit + "]";
      LastIndexOfChar(w, '[') == Some(|v| + 1) && HasSuffix(w, "]") && w[..|v| + 1] == v + " "
  {
    var w := v + " [" + unit + "]";
    assert w[|v| + 1] == '[';
    assert forall j | |v| + 1 < j < |w| :: w[j] == (unit + "]")[j - |v| - 2];
  }

  /**
    A value ending in ']' is cut at its last '[', wherever that is, and what
    comes before it is trimmed.
   */
  lemma StripUnitAtLastBracket(value: string, u: nat)
    requires u < |value| && value[u] == '[' && HasSuffix(value, "]")
    requires forall j | u < j < |value| :: value[j] != '['
    ensures StripUnit(value) == TrimSpace(value[..u])
  {
    assert '[' in value by { assert value[u] == '['; }
    var last := LastIndexOfChar(value, '[');
    assert last.Some? && last.value == u;
  }

  /** Exactly one unit is stripped: `v [unit]` gives back the trimmed value `v`, even when `v` ends in a unit of its own. */
  lemma StripUnitOnce(v: string, unit: string)
    requires v != [] && Trimmed(v) && '[' !in unit
    ensures StripUnit(v + " [" + unit + "]") == v
  {
    UnitBracket(v, unit);
    TrimSpaceTrailingBlank(v);
  }

  /** A trailing `[unit]` after the value of a written line is read and dropped. */
  lemma ParseFormatLineWithUnit(kv: KV, unit: string)
    requires Writable(kv) && kv.key != "COMMENT" && '[' !in unit
    ensures ParseLine(FormatLine(kv) + " [" + unit + "]") == Ok(kv)
  {
    var (k, v) := (kv.key, kv.value);
    var w := v + " [" + unit + "]";
    assert FormatLine(kv) + " [" + unit + "]" == k + " = " + w;
    assert Trimmed(w) && w != [] by { TrimmedConcat(v, " [" + unit + "]"); }
    StripUnitOnce(v, unit);
    ParseWrittenKeyValue(k, w);
  }

  /** Only the exactly-empty pieces of the split are skipped. */
  function NonEmpty(lines: seq<string>): (r: seq<string>)
    ensures forall i | 0 <= i < |r| :: r[i] != ""
    ensures |r| <= |lines|
    ensures forall line :: line in r <==> line in lines && line != ""
  {
    if lines == [] then []
    else if lines[0] == "" then NonEmpty(lines[1..])
    else [lines[0]] + NonEmpty(lines[1..])
  }

  /** The lines of a message: its trimmed text split on the ending detected in the untrimmed text. */
  function Lines(raw: string): seq<string> {
    Split(TrimSpace(raw), DetectLineEnding(raw))
  }

  /** Prefixes already collected tokens to the outcome of the rest. */
  function Prepend(kvs: seq<KV>, r: Result<seq<KV>, LexError>): Result<seq<KV>, LexError> {
    match r
    case Ok(rest) => Ok(kvs + rest)
    case Err(e) => Err(e)
  }

  lemma PrependPrepend(a: seq<KV>, b: seq<KV>, r: Result<seq<KV>, LexError>)
    ensures Prepend(a, Prepend(b, r)) == Prepend(a + b, r)
  {
    if r.Ok? {
      assert a + (b + r.value) == (a + b) + r.value;
    }
  }

  /**
    The tokens of a sequence of lines under a line parser: empty lines are
    skipped, every other line gives one token, and the first line the parser
    rejects ends the pass with its error.
   */
  function TokenizeWith(parse: string -> Result<KV, LexError>, lines: seq<string>): (r: Result<seq<KV>, LexError>)
    ensures r.Ok? ==> |r.value| == |NonEmpty(lines)|
  {
    if lines == [] then Ok([])
    else if lines[0] == "" then TokenizeWith(parse, lines[1..])
    else
      match parse(lines[0])
      case Err(e) => Err(e)
      case Ok(kv) => Prepend([kv], TokenizeWith(parse, lines[1..]))
  }

  /** The specification of parseIntoKVs. */
  function Tokenize(raw: string): (r: Result<seq<KV>, LexError>)
    ensures r.Ok? ==> |r.value| == |NonEmpty(Lines(raw))|
  {
    TokenizeWith(ParseLine, Lines(raw))
  }

  /** The loop of parseIntoKVs: one pass over the lines, appending one token per non-empty line. */
  method TokenizeLines(parse: string -> Result<KV, LexError>, lines: seq<string>) returns (r: Result<seq<KV>, LexError>)
    ensures r == TokenizeWith(parse, lines)
  {
    var kvs: seq<KV> := [];
    var i := 0;
    assert lines[i..] == lines;
    var whole := TokenizeWith(parse, lines);
    if whole.Ok? {
      assert [] + whole.value == whole.value;
    }
    while i < |lines|
      invariant 0 <= i <= |lines|
      invariant TokenizeWith(parse, lines) == Prepend(kvs, TokenizeWith(parse, lines[i..]))
    {
      assert lines[i..][1..] == lines[i + 1..];
      assert lines[i..][0] == lines[i];
      if lines[i] == "" {
        i := i + 1;
        continue;
      }
      var parsed := parse(lines[i]);
      if parsed.Err? {
        return Err(parsed.error);
      }
      PrependPrepend(kvs, [parsed.value], TokenizeWith(parse, lines[i + 1..]));
      kvs := kvs + [parsed.value];
      i := i + 1;
    }
    assert lines[i..] == [];
    assert kvs + [] == kvs;
    r := Ok(kvs);
  }

  /** parseIntoKVs: the lines of the message, tokenized with parseLine. */
  method ParseIntoKVs(raw: string) returns (r: Result<seq<KV>, LexError>)
    ensures r == Tokenize(raw)
  {
    r := TokenizeLines(ParseLine, Lines(raw));
  }

  /**
    Tokenizing succeeds exactly when every non-empty line parses; the tokens are
    then those lines' tokens, one per line and in order, duplicates kept.
   */
  lemma {:induction false} TokenizeShape(parse: string -> Result<KV, LexError>, lines: seq<string>)
    ensures TokenizeWith(parse, lines).Ok? ==>
      forall i | 0 <= i < |NonEmpty(lines)| :: parse(NonEmpty(lines)[i]).Ok?
    ensures (forall i | 0 <= i < |NonEmpty(lines)| :: parse(NonEmpty(lines)[i]).Ok?) ==>
      TokenizeWith(parse, lines).Ok?
    ensures TokenizeWith(parse, lines).Ok? ==>
      |TokenizeWith(parse, lines).value| == |NonEmpty(lines)| &&
      forall i | 0 <= i < |NonEmpty(lines)| :: Ok(TokenizeWith(parse, lines).value[i]) == parse(NonEmpty(lines)[i])
  {
    if lines == [] {
      return;
    }
    TokenizeShape(parse, lines[1..]);
    var rest, ne := NonEmpty(lines[1..]), NonEmpty(lines);
    var t, tr := TokenizeWith(parse, lines), TokenizeWith(parse, lines[1..]);
    if lines[0] == "" {
      assert ne == rest && t == tr;
    } else {
      assert ne == [lines[0]] + rest;
      if parse(lines[0]).Ok? {
        assert t == Prepend([parse(lines[0]).value], tr);
        if tr.Ok? {
          assert t.value == [parse(lines[0]).value] + tr.value;
          forall i | 0 <= i < |ne|
            ensures Ok(t.value[i]) == parse(ne[i])
          {
            if i > 0 {
              assert ne[i] == rest[i - 1];
            }
          }
        } else {
          var i :| 0 <= i < |rest| && !parse(rest[i]).Ok?;
          assert ne[i + 1] == rest[i];
          assert 0 <= i + 1 < |ne| && !parse(ne[i + 1]).Ok?;
          assert !(forall k | 0 <= k < |ne| :: parse(ne[k]).Ok?);
          assert t.Err?;
        }
      } else {
        assert t == Err(parse(lines[0]).error);
        assert ne[0] == lines[0] && !parse(ne[0]).Ok?;
        assert !t.Ok?;
        assert !(forall k | 0 <= k < |NonEmpty(lines)| :: parse(NonEmpty(lines)[k]).Ok?);
      }
    }
  }

  /** A failure is the error of the first non-empty line that does not parse. */
  lemma {:induction false} TokenizeFirstError(parse: string -> Result<KV, LexError>, lines: seq<string>)
    requires TokenizeWith(parse, lines).Err?
    ensures exists i ::
      && 0 <= i < |NonEmpty(lines)|
      && parse(NonEmpty(lines)[i]) == Err(TokenizeWith(parse, lines).error)
      && forall j | 0 <= j < i :: parse(NonEmpty(lines)[j]).Ok?
  {
    var ne := NonEmpty(lines);
    if lines[0] == "" {
      TokenizeFirstError(parse, lines[1..]);
      assert ne == NonEmpty(lines[1..]);
      assert TokenizeWith(parse, lines) == TokenizeWith(parse, lines[1..]);
      var i :| 0 <= i < |ne| && parse(ne[i]) == Err(TokenizeWith(parse, lines[1..]).error) &&
        forall j | 0 <= j < i :: parse(ne[j]).Ok?;
    } else if parse(lines[0]).Err? {
      assert ne[0] == lines[0];
      assert TokenizeWith(parse, lines) == Err(parse(lines[0]).error);
      assert parse(ne[0]) == Err(TokenizeWith(parse, lines).error);
    } else {
      TokenizeFirstError(parse, lines[1..]);
      var rest := NonEmpty(lines[1..]);
      var i :| 0 <= i < |rest| && parse(rest[i]) == Err(TokenizeWith(parse, lines).error) &&
        forall j | 0 <= j < i :: parse(rest[j]).Ok?;
      assert ne == [lines[0]] + rest;
      assert ne[i + 1] == rest[i];
    }
  }

  /** Dropping the empty lines works line by line, so the kept lines stay in their order. */
  lemma {:induction false} NonEmptyAppend(a: seq<string>, b: seq<string>)
    ensures NonEmpty(a + b) == NonEmpty(a) + NonEmpty(b)
    decreases |a|
  {
    if a == [] {
      assert a + b == b;
    } else {
      assert (a + b)[1..] == a[1..] + b;
      NonEmptyAppend(a[1..], b);
    }
  }

  /** Lines that are all non-empty are kept as they are. */
  lemma {:induction false} NonEmptyAll(lines: seq<string>)
    requires forall i | 0 <= i < |lines| :: lines[i] != ""
    ensures NonEmpty(lines) == lines
  {
    if lines != [] {
      NonEmptyAll(lines[1..]);
      assert lines == [lines[0]] + lines[1..];
    }
  }

  /** A line with no white space at either end and no line break. */
  predicate PlainLine(line: string) {
    && line != [] && !IsSpace(line[0]) && !IsSpace(line[|line| - 1])
    && '\n' !in line && '\r' !in line
  }

  /** A written line is plain. */
  lemma FormatLineShape(kv: KV)
    requires Writable(kv)
    ensures PlainLine(FormatLine(kv))
  {
    var line := FormatLine(kv);
    if kv.key == "COMMENT" {
      assert line == "COMMENT " + kv.value;
    } else {
      assert line == kv.key + " = " + kv.value;
    }
  }

  /** The lines of a sequence of tokens, one written line per token. */
  function FormatLines(kvs: seq<KV>): (lines: seq<string>)
    ensures |lines| == |kvs|
  {
    seq(|kvs|, i requires 0 <= i < |kvs| => FormatLine(kvs[i]))
  }

  /** Plain lines joined with LF start as the first line starts and end as the last line ends. */
  lemma JoinPlainEnds(lines: seq<string>)
    requires |lines| >= 1 && forall i | 0 <= i < |lines| :: PlainLine(lines[i])
    ensures Join(lines, LF) != [] && !IsSpace(Join(lines, LF)[0]) && !IsSpace(Last(Join(lines, LF)))
  {
    assert forall i | 0 <= i < |lines| :: lines[i] != [];
    JoinEnds(lines, LF);
    assert PlainLine(lines[0]) && PlainLine(lines[|lines| - 1]);
  }

  /** Plain lines joined with LF have no white space at either end. */
  lemma JoinTrimmed(lines: seq<string>)
    requires |lines| >= 1 && forall i | 0 <= i < |lines| :: PlainLine(lines[i])
    ensures Trimmed(Join(lines, LF))
  {
    JoinPlainEnds(lines);
  }

  /** Plain lines joined with LF hold no carriage return, so LF is their line ending. */
  lemma JoinLineEnding(lines: seq<string>)
    requires |lines| >= 1 && forall i | 0 <= i < |lines| :: PlainLine(lines[i])
    ensures DetectLineEnding(Join(lines, LF)) == LF
  {
    assert forall i | 0 <= i < |lines| :: '\r' !in lines[i];
    JoinAvoids(lines, LF, '\r');
    NoCarriageReturnMeansLF(Join(lines, LF));
  }

  /** Plain lines joined with LF are split back into the same lines. */
  lemma LinesOfJoin(lines: seq<string>)
    requires |lines| >= 1 && forall i | 0 <= i < |lines| :: PlainLine(lines[i])
    ensures Lines(Join(lines, LF)) == lines
  {
    var raw := Join(lines, LF);
    assert Lines(raw) == Split(raw, LF) by {
      JoinLineEnding(lines);
      JoinTrimmed(lines);
      TrimSpaceOfTrimmed(raw);
    }
    assert forall i | 0 <= i < |lines| :: '\n' !in lines[i];
    JoinSplit(lines, '\n');
  }

  /** Written lines are tokenized into the tokens they were written from. */
  lemma TokenizeWithFormatLines(kvs: seq<KV>)
    requires forall i | 0 <= i < |kvs| :: Writable(kvs[i])
    ensures TokenizeWith(ParseLine, FormatLines(kvs)) == Ok(kvs)
  {
    var lines := FormatLines(kvs);
    assert NonEmpty(lines) == lines by {
      forall i | 0 <= i < |lines|
        ensures lines[i] != ""
      {
        FormatLineShape(kvs[i]);
      }
      NonEmptyAll(lines);
    }
    forall i | 0 <= i < |lines|
      ensures ParseLine(lines[i]) == Ok(kvs[i])
    {
      ParseFormatLine(kvs[i]);
    }
    TokenizeAllAccepted(ParseLine, lines, kvs);
  }

  /** When every line is non-empty and parses, the tokens are exactly the parsed ones. */
  lemma TokenizeAllAccepted(parse: string -> Result<KV, LexError>, lines: seq<string>, kvs: seq<KV>)
    requires NonEmpty(lines) == lines && |kvs| == |lines|
    requires forall i | 0 <= i < |lines| :: parse(lines[i]) == Ok(kvs[i])
    ensures TokenizeWith(parse, lines) == Ok(kvs)
  {
    var t := TokenizeWith(parse, lines);
    TokenizeShape(parse, lines);
    assert forall i | 0 <= i < |lines| :: parse(lines[i]).Ok?;
    assert t.Ok?;
    forall i | 0 <= i < |kvs|
      ensures t.value[i] == kvs[i]
    {
      assert Ok(t.value[i]) == parse(lines[i]);
    }
    assert t.value == kvs;
  }

  /**
    Tokens written one per line and joined with LF are read back exactly, in
    order and with repetitions.
   */
  lemma TokenizeFormatLines(kvs: seq<KV>)
    requires |kvs| >= 1 && forall i | 0 <= i < |kvs| :: Writable(kvs[i])
    ensures Tokenize(Join(FormatLines(kvs), LF)) == Ok(kvs)
  {
    var lines := FormatLines(kvs);
    forall i | 0 <= i < |lines|
      ensures PlainLine(lines[i])
    {
      FormatLineShape(kvs[i]);
    }
    LinesOfJoin(lines);
    TokenizeWithFormatLines(kvs);
  }
}

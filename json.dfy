/**
 * The JSON the listing writes: a print entry with its null fields left out,
 * and the `resultInfo` object of `resultFooter`. Encoding of single values
 * (a string literal, a UUID, a timestamp) belongs to the JSON library and
 * is a parameter.
 */
module Json {

  import opened Wrappers
  import opened Text
  import opened Entries

  /** The JSON library's encoders for single values. */
  datatype JsonCodec = JsonCodec(
    str: string -> string,
    uuid: Uuid -> string,
    time: ZonedDateTime -> string)

  function TypeName(t: EntryType): string
  {
    match t
    case SINGLE => "SINGLE"
    case BATCH => "BATCH"
  }

  /** A member `"key":value` when the field has a value, nothing when it is null. */
  function Member<T>(key: string, field: Option<T>, enc: T -> string): seq<(string, string)>
  {
    match field
    case None => []
    case Some(v) => [(key, enc(v))]
  }

  /** The members of an entry's JSON object, in field order, null fields left out. */
  function Members(e: PrintEntry, j: JsonCodec): (ms: seq<(string, string)>)
  {
    Member("id", e.id, j.uuid)
    + Member("created", e.created, j.time)
    + Member("type", e.entryType, (t: EntryType) => j.str(TypeName(t)))
    + Member("sortingField", e.sortingField, j.str)
    + Member("content", e.content, j.str)
  }

  function Keys(ms: seq<(string, string)>): (ks: seq<string>)
    ensures |ks| == |ms| && forall i :: 0 <= i < |ms| ==> ks[i] == ms[i].0
  {
    if |ms| == 0 then [] else [ms[0].0] + Keys(ms[1..])
  }

  lemma {:induction false} KeysConcat(a: seq<(string, string)>, b: seq<(string, string)>)
    ensures Keys(a + b) == Keys(a) + Keys(b)
  {
    if |a| > 0 {
      assert (a + b)[1..] == a[1..] + b;
      KeysConcat(a[1..], b);
    }
  }

  lemma KeysOfMember<T>(key: string, field: Option<T>, enc: T -> string)
    ensures Keys(Member(key, field, enc)) == if field.Some? then [key] else []
  {
  }

  /** The key list of an entry's object is exactly its non-null fields, in field order. */
  lemma {:induction false} MembersOmitNulls(e: PrintEntry, j: JsonCodec)
    ensures Keys(Members(e, j)) ==
      (if e.id.Some? then ["id"] else [])
      + (if e.created.Some? then ["created"] else [])
      + (if e.entryType.Some? then ["type"] else [])
      + (if e.sortingField.Some? then ["sortingField"] else [])
      + (if e.content.Some? then ["content"] else [])
  {
    var a := Member("id", e.id, j.uuid);
    var b := Member("created", e.created, j.time);
    var c := Member("type", e.entryType, (t: EntryType) => j.str(TypeName(t)));
    var d := Member("sortingField", e.sortingField, j.str);
    var f := Member("content", e.content, j.str);
    assert Members(e, j) == a + b + c + d + f;
    KeysOfMember("id", e.id, j.uuid);
    KeysOfMember("created", e.created, j.time);
    KeysOfMember("type", e.entryType, (t: EntryType) => j.str(TypeName(t)));
    KeysOfMember("sortingField", e.sortingField, j.str);
    KeysOfMember("content", e.content, j.str);
    KeysConcat(a, b);
    KeysConcat(a + b, c);
    KeysConcat(a + b + c, d);
    KeysConcat(a + b + c + d, f);
  }

  function MemberTexts(ms: seq<(string, string)>, j: JsonCodec): (ts: seq<string>)
    ensures |ts| == |ms|
  {
    seq(|ms|, i requires 0 <= i < |ms| => j.str(ms[i].0) + ":" + ms[i].1)
  }

  /** A JSON object with the given members, in order. */
  function EncodeObject(ms: seq<(string, string)>, j: JsonCodec): string
  {
    "{" + Join(MemberTexts(ms, j)) + "}"
  }

  /** `JsonObject.mapFrom(entry).encode()`. */
  function EncodeEntry(e: PrintEntry, j: JsonCodec): (text: string)
    ensures StartsWith(text, "{") && EndsWith(text, "}")
    ensures e.id.Some? ==> StartsWith(text, "{" + j.str("id") + ":" + j.uuid(e.id.value))
    ensures Members(e, j) == [] ==> text == "{}"
  {
    var ms := Members(e, j);
    var ts := MemberTexts(ms, j);
    Framed("{", Join(ts), "}");
    if e.id.Some? then
      assert ms[0] == ("id", j.uuid(e.id.value));
      JoinFirst(ts);
      StartsWithPrepend("{", Join(ts), ts[0]);
      StartsWithPrefix("{" + Join(ts), "{" + ts[0], "}");
      assert "{" + ts[0] == "{" + j.str("id") + ":" + j.uuid(e.id.value);
      EncodeObject(ms, j)
    else
      EncodeObject(ms, j)
  }

  /** The `resultInfo` object. */
  datatype ResultInfo = ResultInfo(totalRecords: Option<int>, diagnostics: seq<string>)

  /**
   * `resultFooter`'s object: totalRecords only when a count row is given,
   * and a diagnostics list holding the one message given, or nothing.
   */
  function Footer(count: Option<int>, diagnostic: Option<string>): (info: ResultInfo)
    ensures info.totalRecords == count
    ensures |info.diagnostics| <= 1
    ensures info.diagnostics == [] <==> diagnostic.None?
    ensures diagnostic.Some? ==> info.diagnostics[0] == diagnostic.value
  {
    ResultInfo(count, if diagnostic.Some? then [diagnostic.value] else [])
  }

  function DiagnosticTexts(ds: seq<string>, j: JsonCodec): (ts: seq<string>)
    ensures |ts| == |ds|
  {
    seq(|ds|, i requires 0 <= i < |ds| => "{" + j.str("message") + ":" + j.str(ds[i]) + "}")
  }

  /** `resultInfo.encode()`: keys in insertion order, totalRecords first when present. */
  function EncodeInfo(info: ResultInfo, j: JsonCodec): (text: string)
    ensures StartsWith(text, "{") && EndsWith(text, "}")
    ensures info.totalRecords.Some? ==>
      StartsWith(text, "{" + (j.str("totalRecords") + ":" + IntToString(info.totalRecords.value) + ","))
    ensures info.totalRecords.None? ==> StartsWith(text, "{" + (j.str("diagnostics") + ":["))
  {
    var total :=
      if info.totalRecords.Some? then j.str("totalRecords") + ":" + IntToString(info.totalRecords.value) + "," else "";
    var opening := j.str("diagnostics") + ":[";
    var rest := Join(DiagnosticTexts(info.diagnostics, j)) + "]";
    ObjectPrefix(total, opening, rest);
    "{" + (total + (opening + rest)) + "}"
  }

  /** The shape of the `resultInfo` text: braces around an optional leading member and the rest. */
  lemma ObjectPrefix(total: string, opening: string, rest: string)
    ensures var text := "{" + (total + (opening + rest)) + "}";
      && StartsWith(text, "{") && EndsWith(text, "}") && StartsWith(text, "{" + total)
      && (total == "" ==> StartsWith(text, "{" + opening))
  {
    var text := "{" + (total + (opening + rest)) + "}";
    Framed("{", total + (opening + rest), "}");
    assert text == ("{" + total) + ((opening + rest) + "}");
    StartsWithConcat("{" + total, (opening + rest) + "}");
    if total == "" {
      assert text == ("{" + opening) + (rest + "}");
      StartsWithConcat("{" + opening, rest + "}");
    }
  }
}

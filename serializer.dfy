/**
 * The codec for schema records and user records. A record is a fixed
 * sequence of typed primitives; the stream is modelled as a sequence of
 * tagged tokens, written by appending and read through a cursor.
 */
module SchemaCodec {
  import opened Wrappers

  /** One primitive on the stream: a Java long, int, boolean or string. */
  datatype Token = TLong(longValue: int) | TInt(intValue: int) | TBool(boolValue: bool) | TStr(strValue: string)

  datatype CodecError =
    | EndOfStream
      /** The token at `at` is not of the kind being read. */
    | WrongToken(at: nat)
      /** A negative field count, which cannot size the field arrays. */
    | NegativeCount(count: int)
    | InvalidOid(oid: int)
    | ClassNotFound(className: string)

  /** A field of a schema: its name, its type name and whether the type is persistent. */
  datatype FieldDef = FieldDef(name: string, typeName: string, isPersistentType: bool)

  /** A schema as it is written: class name, super-class oid and fields. */
  datatype SchemaDef = SchemaDef(className: string, superOid: int, fields: seq<FieldDef>)

  /** A schema as it is read back: the resolved class, the oid and the super-class oid. */
  datatype ClassDef = ClassDef(className: string, oid: int, superOid: int)

  /** An administrative user: id, OS user name, access flags, DB user name and password CRC. */
  datatype User = User(id: int, nameOS: string, isDBA: bool, isR: bool, isW: bool,
                       passwordRequired: bool, nameDB: string, passwordCRC: int)

  /** A value read from the stream, with the cursor after it. */
  datatype Read<T> = Read(value: T, next: nat)

  /* ---------------- encoding ---------------- */

  function FieldTriple(f: FieldDef): seq<Token>
  {
    [TStr(f.name), TStr(f.typeName), TBool(f.isPersistentType)]
  }

  /** The tokens of a field list: one (name, type name, is-persistent) triple per field, in order. */
  function FieldTokens(fs: seq<FieldDef>): (r: seq<Token>)
    ensures |r| == 3 * |fs|
  {
    if fs == [] then [] else FieldTokens(fs[..|fs| - 1]) + FieldTriple(fs[|fs| - 1])
  }

  /** The tokens of a schema record: oid, class name, super oid, field count, fields. */
  function SchemaTokens(s: SchemaDef, oid: int): seq<Token>
  {
    [TLong(oid), TStr(s.className), TLong(s.superOid), TInt(|s.fields|)] + FieldTokens(s.fields)
  }

  /** The tokens of a user record: id, the four flags, DB name, password CRC. */
  function UserTokens(u: User): seq<Token>
  {
    [TInt(u.id), TBool(u.isDBA), TBool(u.isR), TBool(u.isW), TBool(u.passwordRequired),
     TStr(u.nameDB), TLong(u.passwordCRC)]
  }

  /* ---------------- decoding, as functions of the stream ---------------- */

  function Missing(ts: seq<Token>, at: nat): CodecError
  {
    if at < |ts| then WrongToken(at) else EndOfStream
  }

  function LongAt(ts: seq<Token>, at: nat): Result<Read<int>, CodecError>
  {
    if at < |ts| && ts[at].TLong? then Ok(Read(ts[at].longValue, at + 1)) else Err(Missing(ts, at))
  }

  function IntAt(ts: seq<Token>, at: nat): Result<Read<int>, CodecError>
  {
    if at < |ts| && ts[at].TInt? then Ok(Read(ts[at].intValue, at + 1)) else Err(Missing(ts, at))
  }

  function BoolAt(ts: seq<Token>, at: nat): Result<Read<bool>, CodecError>
  {
    if at < |ts| && ts[at].TBool? then Ok(Read(ts[at].boolValue, at + 1)) else Err(Missing(ts, at))
  }

  function StrAt(ts: seq<Token>, at: nat): Result<Read<string>, CodecError>
  {
    if at < |ts| && ts[at].TStr? then Ok(Read(ts[at].strValue, at + 1)) else Err(Missing(ts, at))
  }

  function TripleAt(ts: seq<Token>, at: nat): Result<Read<FieldDef>, CodecError>
  {
    match StrAt(ts, at)
    case Err(e) => Err(e)
    case Ok(name) =>
      match StrAt(ts, name.next)
      case Err(e) => Err(e)
      case Ok(typeName) =>
        match BoolAt(ts, typeName.next)
        case Err(e) => Err(e)
        case Ok(isPC) => Ok(Read(FieldDef(name.value, typeName.value, isPC.value), isPC.next))
  }

  /** The first `n` field triples from `at`, read one after the other. */
  function FieldsAt(ts: seq<Token>, at: nat, n: nat): (r: Result<Read<seq<FieldDef>>, CodecError>)
    ensures r.Ok? ==> |r.value.value| == n
  {
    if n == 0 then Ok(Read([], at))
    else
      match FieldsAt(ts, at, n - 1)
      case Err(e) => Err(e)
      case Ok(fs) =>
        match TripleAt(ts, fs.next)
        case Err(e) => Err(e)
        case Ok(f) => Ok(Read(fs.value + [f.value], f.next))
  }

  /** The fixed part of a schema record: oid, class name, super oid and field count. */
  datatype Header = Header(oid: int, className: string, superOid: int, count: int)

  function HeaderAt(ts: seq<Token>, at: nat): Result<Read<Header>, CodecError>
  {
    match LongAt(ts, at)
    case Err(e) => Err(e)
    case Ok(oid) =>
      match StrAt(ts, oid.next)
      case Err(e) => Err(e)
      case Ok(name) =>
        match LongAt(ts, name.next)
        case Err(e) => Err(e)
        case Ok(sup) =>
          match IntAt(ts, sup.next)
          case Err(e) => Err(e)
          case Ok(n) => Ok(Read(Header(oid.value, name.value, sup.value, n.value), n.next))
  }

  /**
   * A schema record read from `at`. The field triples are read but not part
   * of the result; the class name must name a loadable class.
   */
  function SchemaAt(ts: seq<Token>, at: nat, loadable: set<string>): Result<Read<ClassDef>, CodecError>
  {
    match HeaderAt(ts, at)
    case Err(e) => Err(e)
    case Ok(h) =>
      if h.value.count < 0 then Err(NegativeCount(h.value.count))
      else
        match FieldsAt(ts, h.next, h.value.count)
        case Err(e) => Err(e)
        case Ok(fs) =>
          if h.value.className !in loadable then Err(ClassNotFound(h.value.className))
          else Ok(Read(ClassDef(h.value.className, h.value.oid, h.value.superOid), fs.next))
  }

  /** A user record read from `at`, which is just after its id: the id and OS name come from the caller. */
  function UserAt(ts: seq<Token>, at: nat, userId: int, nameOS: string): Result<Read<User>, CodecError>
  {
    match BoolAt(ts, at)
    case Err(e) => Err(e)
    case Ok(dba) =>
      match BoolAt(ts, dba.next)
      case Err(e) => Err(e)
      case Ok(r) =>
        match BoolAt(ts, r.next)
        case Err(e) => Err(e)
        case Ok(w) =>
          match BoolAt(ts, w.next)
          case Err(e) => Err(e)
          case Ok(pw) =>
            match StrAt(ts, pw.next)
            case Err(e) => Err(e)
            case Ok(name) =>
              match LongAt(ts, name.next)
              case Err(e) => Err(e)
              case Ok(crc) =>
                Ok(Read(User(userId, nameOS, dba.value, r.value, w.value, pw.value, name.value, crc.value), crc.next))
  }

  /* ---------------- properties ---------------- */

  lemma HeaderRoundTrip(ts: seq<Token>, h: Header)
    requires 4 <= |ts| && ts[0] == TLong(h.oid) && ts[1] == TStr(h.className)
    requires ts[2] == TLong(h.superOid) && ts[3] == TInt(h.count)
    ensures HeaderAt(ts, 0) == Ok(Read(h, 4))
  {
    assert LongAt(ts, 0) == Ok(Read(h.oid, 1));
    assert StrAt(ts, 1) == Ok(Read(h.className, 2));
    assert LongAt(ts, 2) == Ok(Read(h.superOid, 3));
    assert IntAt(ts, 3) == Ok(Read(h.count, 4));
  }

  lemma TripleRoundTrip(pre: seq<Token>, f: FieldDef, rest: seq<Token>)
    ensures TripleAt(pre + FieldTriple(f) + rest, |pre|) == Ok(Read(f, |pre| + 3))
  {
    var ts := pre + FieldTriple(f) + rest;
    assert ts[|pre|] == TStr(f.name) && ts[|pre| + 1] == TStr(f.typeName);
    assert ts[|pre| + 2] == TBool(f.isPersistentType);
  }

  /** Reading the triples back from wherever a field list was written gives the field list. */
  lemma {:induction false} FieldsRoundTrip(pre: seq<Token>, fs: seq<FieldDef>, rest: seq<Token>)
    ensures FieldsAt(pre + FieldTokens(fs) + rest, |pre|, |fs|) == Ok(Read(fs, |pre| + 3 * |fs|))
  {
    if fs != [] {
      var n := |fs| - 1;
      var init, f := fs[..n], fs[n];
      var ts := pre + FieldTokens(fs) + rest;
      TokensSplit(pre, fs, rest);
      FieldsRoundTrip(pre, init, FieldTriple(f) + rest);
      TripleRoundTrip(pre + FieldTokens(init), f, rest);
      FieldsStep(ts, |pre|, n, init, |pre| + 3 * n, f, |pre| + 3 * |fs|);
      assert init + [f] == fs;
    }
  }

  /** The stream around a non-empty field list, cut before its last triple. */
  lemma TokensSplit(pre: seq<Token>, fs: seq<FieldDef>, rest: seq<Token>)
    requires fs != []
    ensures pre + FieldTokens(fs) + rest == pre + FieldTokens(fs[..|fs| - 1]) + (FieldTriple(fs[|fs| - 1]) + rest)
    ensures pre + FieldTokens(fs) + rest == pre + FieldTokens(fs[..|fs| - 1]) + FieldTriple(fs[|fs| - 1]) + rest
  {
    var a, b := FieldTokens(fs[..|fs| - 1]), FieldTriple(fs[|fs| - 1]);
    assert FieldTokens(fs) == a + b;
    Regroup(pre, a, b, rest);
  }

  lemma Regroup<T>(pre: seq<T>, a: seq<T>, b: seq<T>, rest: seq<T>)
    ensures pre + (a + b) + rest == pre + a + (b + rest) == pre + a + b + rest
  {
  }

  /** Reading one more triple extends what was read. */
  lemma FieldsSnoc(ts: seq<Token>, at: nat, i: nat, read: seq<FieldDef>)
    requires FieldsAt(ts, at, i).Ok? && FieldsAt(ts, at, i).value.value == read
    ensures FieldsAt(ts, at, i + 1) ==
              match TripleAt(ts, FieldsAt(ts, at, i).value.next)
              case Err(e) => Err(e)
              case Ok(f) => Ok(Read(read + [f.value], f.next))
  {
  }

  lemma FieldsStep(ts: seq<Token>, at: nat, i: nat, read: seq<FieldDef>, mid: nat, f: FieldDef, next: nat)
    requires FieldsAt(ts, at, i) == Ok(Read(read, mid)) && TripleAt(ts, mid) == Ok(Read(f, next))
    ensures FieldsAt(ts, at, i + 1) == Ok(Read(read + [f], next))
  {
  }

  /** Once reading the field triples fails, reading more of them fails the same way. */
  lemma {:induction false} FieldsErrorSticks(ts: seq<Token>, at: nat, n: nat, m: nat)
    requires n <= m && FieldsAt(ts, at, n).Err?
    ensures FieldsAt(ts, at, m) == FieldsAt(ts, at, n)
    decreases m
  {
    if n < m {
      FieldsErrorSticks(ts, at, n, m - 1);
    }
  }

  /**
   * Decoding a written schema record consumes exactly its tokens and gives
   * back its oid, class name and super oid, provided the class is loadable;
   * otherwise decoding fails for that class name.
   */
  lemma SchemaRoundTrip(s: SchemaDef, oid: int, rest: seq<Token>, loadable: set<string>)
    ensures |SchemaTokens(s, oid)| == 4 + 3 * |s.fields|
    ensures s.className in loadable ==>
              SchemaAt(SchemaTokens(s, oid) + rest, 0, loadable)
                == Ok(Read(ClassDef(s.className, oid, s.superOid), |SchemaTokens(s, oid)|))
    ensures s.className !in loadable ==>
              SchemaAt(SchemaTokens(s, oid) + rest, 0, loadable) == Err(ClassNotFound(s.className))
  {
    var ts := SchemaTokens(s, oid) + rest;
    var k := |s.fields|;
    var h := Header(oid, s.className, s.superOid, k);
    assert ts[0] == TLong(oid) && ts[1] == TStr(s.className) && ts[2] == TLong(s.superOid) && ts[3] == TInt(k);
    HeaderRoundTrip(ts, h);
    FieldsRoundTrip([TLong(oid), TStr(s.className), TLong(s.superOid), TInt(k)], s.fields, rest);
    assert SchemaAt(ts, 0, loadable) ==
           if s.className !in loadable then Err(ClassNotFound(s.className))
           else Ok(Read(ClassDef(s.className, oid, s.superOid), 4 + 3 * k));
  }

  /**
   * Decoding a written user record after its leading id restores every part
   * of the user except the id and OS name, which are the caller's arguments;
   * the record is consumed exactly.
   */
  lemma UserRoundTrip(u: User, rest: seq<Token>, userId: int, nameOS: string)
    ensures UserTokens(u)[0] == TInt(u.id)
    ensures UserAt(UserTokens(u) + rest, 1, userId, nameOS)
              == Ok(Read(u.(id := userId, nameOS := nameOS), |UserTokens(u)|))
  {
  }

  /* ---------------- the streams ---------------- */

  /** An output stream: the tokens written so far. */
  class Output {
    var tokens: seq<Token>

    constructor ()
      ensures tokens == []
    {
      tokens := [];
    }

    method WriteLong(v: int)
      modifies this
      ensures tokens == old(tokens) + [TLong(v)]
    {
      tokens := tokens + [TLong(v)];
    }

    method WriteInt(v: int)
      modifies this
      ensures tokens == old(tokens) + [TInt(v)]
    {
      tokens := tokens + [TInt(v)];
    }

    method WriteBoolean(v: bool)
      modifies this
      ensures tokens == old(tokens) + [TBool(v)]
    {
      tokens := tokens + [TBool(v)];
    }

    method WriteString(v: string)
      modifies this
      ensures tokens == old(tokens) + [TStr(v)]
    {
      tokens := tokens + [TStr(v)];
    }
  }

  /** An input stream: fixed tokens and a cursor. */
  class Input {
    const tokens: seq<Token>
    var cursor: nat

    constructor (tokens: seq<Token>)
      ensures this.tokens == tokens && cursor == 0
    {
      this.tokens := tokens;
      cursor := 0;
    }

    method ReadLong() returns (r: Result<int, CodecError>)
      modifies this
      ensures match LongAt(tokens, old(cursor))
              case Ok(d) => r == Ok(d.value) && cursor == d.next
              case Err(e) => r == Err(e)
    {
      r := Err(Missing(tokens, cursor));
      if cursor < |tokens| && tokens[cursor].TLong? {
        r := Ok(tokens[cursor].longValue);
        cursor := cursor + 1;
      }
    }

    method ReadInt() returns (r: Result<int, CodecError>)
      modifies this
      ensures match IntAt(tokens, old(cursor))
              case Ok(d) => r == Ok(d.value) && cursor == d.next
              case Err(e) => r == Err(e)
    {
      r := Err(Missing(tokens, cursor));
      if cursor < |tokens| && tokens[cursor].TInt? {
        r := Ok(tokens[cursor].intValue);
        cursor := cursor + 1;
      }
    }

    method ReadBoolean() returns (r: Result<bool, CodecError>)
      modifies this
      ensures match BoolAt(tokens, old(cursor))
              case Ok(d) => r == Ok(d.value) && cursor == d.next
              case Err(e) => r == Err(e)
    {
      r := Err(Missing(tokens, cursor));
      if cursor < |tokens| && tokens[cursor].TBool? {
        r := Ok(tokens[cursor].boolValue);
        cursor := cursor + 1;
      }
    }

    method ReadString() returns (r: Result<string, CodecError>)
      modifies this
      ensures match StrAt(tokens, old(cursor))
              case Ok(d) => r == Ok(d.value) && cursor == d.next
              case Err(e) => r == Err(e)
    {
      r := Err(Missing(tokens, cursor));
      if cursor < |tokens| && tokens[cursor].TStr? {
        r := Ok(tokens[cursor].strValue);
        cursor := cursor + 1;
      }
    }
  }

  /* ---------------- the codec ---------------- */

  /**
   * Write a schema record for `schema` under `oid`. The oid is checked
   * first (`isValidOid` stands for the session's oid check); an invalid oid
   * writes nothing.
   */
  method SerializeSchema(schema: SchemaDef, oid: int, out: Output, isValidOid: int -> bool)
    returns (r: Outcome<CodecError>)
    modifies out
    ensures isValidOid(oid) ==> r == Pass && out.tokens == old(out.tokens) + SchemaTokens(schema, oid)
    ensures !isValidOid(oid) ==> r == Fail(InvalidOid(oid)) && out.tokens == old(out.tokens)
  {
    if !isValidOid(oid) {
      return Fail(InvalidOid(oid));
    }
    out.WriteLong(oid);
    out.WriteString(schema.className);
    out.WriteLong(schema.superOid);
    out.WriteInt(|schema.fields|);
    WriteFields(out, schema.fields);
    r := Pass;
  }

  /** Write one (name, type name, is-persistent) triple per field. */
  method WriteFields(out: Output, fields: seq<FieldDef>)
    modifies out
    ensures out.tokens == old(out.tokens) + FieldTokens(fields)
  {
    for i := 0 to |fields|
      invariant out.tokens == old(out.tokens) + FieldTokens(fields[..i])
    {
      assert fields[..i + 1][..i] == fields[..i];
      out.WriteString(fields[i].name);
      out.WriteString(fields[i].typeName);
      out.WriteBoolean(fields[i].isPersistentType);
    }
    assert fields[..|fields|] == fields;
  }

  /**
   * Read a schema record. The field triples are read into three columns and
   * then dropped; the class name is resolved against the loadable classes.
   */
  method DeSerializeSchema(input: Input, loadable: set<string>) returns (r: Result<ClassDef, CodecError>)
    modifies input
    ensures match SchemaAt(input.tokens, old(input.cursor), loadable)
            case Ok(d) => r == Ok(d.value) && input.cursor == d.next
            case Err(e) => r == Err(e)
  {
    var h :- ReadHeader(input);
    if h.count < 0 {
      return Err(NegativeCount(h.count));
    }
    var fieldsRead, fNames, tNames, isPCs := ReadFields(input, h.count);
    if fieldsRead.Fail? {
      return Err(fieldsRead.error);
    }
    if h.className !in loadable {
      return Err(ClassNotFound(h.className));
    }
    r := Ok(ClassDef(h.className, h.oid, h.superOid));
  }

  /**
   * Read `n` field triples, collecting the names, type names and flags in
   * three columns.
   */
  method ReadFields(input: Input, n: nat)
    returns (r: Outcome<CodecError>, fNames: seq<string>, tNames: seq<string>, isPCs: seq<bool>)
    modifies input
    ensures match FieldsAt(input.tokens, old(input.cursor), n)
            case Ok(d) =>
              r == Pass && input.cursor == d.next && |fNames| == |tNames| == |isPCs| == n &&
              (forall j :: 0 <= j < n ==> d.value[j] == FieldDef(fNames[j], tNames[j], isPCs[j]))
            case Err(e) => r == Fail(e)
  {
    fNames, tNames, isPCs := [], [], [];
    ghost var start := input.cursor;
    ghost var read: seq<FieldDef> := [];
    for i := 0 to n
      invariant |read| == |fNames| == |tNames| == |isPCs| == i
      invariant FieldsAt(input.tokens, start, i) == Ok(Read(read, input.cursor))
      invariant forall j :: 0 <= j < i ==> read[j] == FieldDef(fNames[j], tNames[j], isPCs[j])
    {
      var f := ReadField(input);
      if f.Err? {
        FieldsErrorSticks(input.tokens, start, i + 1, n);
        return Fail(f.error), fNames, tNames, isPCs;
      }
      fNames := fNames + [f.value.name];
      tNames := tNames + [f.value.typeName];
      isPCs := isPCs + [f.value.isPersistentType];
      FieldsSnoc(input.tokens, start, i, read);
      read := read + [f.value];
    }
    r := Pass;
  }

  /** Read the fixed part of a schema record. */
  method ReadHeader(input: Input) returns (r: Result<Header, CodecError>)
    modifies input
    ensures match HeaderAt(input.tokens, old(input.cursor))
            case Ok(d) => r == Ok(d.value) && input.cursor == d.next
            case Err(e) => r == Err(e)
  {
    var oid :- input.ReadLong();
    var className :- input.ReadString();
    var supOid :- input.ReadLong();
    var nF :- input.ReadInt();
    r := Ok(Header(oid, className, supOid, nF));
  }

  /** Read one field triple: name, type name, is-persistent. */
  method ReadField(input: Input) returns (r: Result<FieldDef, CodecError>)
    modifies input
    ensures match TripleAt(input.tokens, old(input.cursor))
            case Ok(d) => r == Ok(d.value) && input.cursor == d.next
            case Err(e) => r == Err(e)
  {
    var name :- input.ReadString();
    var typeName :- input.ReadString();
    var isPC :- input.ReadBoolean();
    r := Ok(FieldDef(name, typeName, isPC));
  }

  /** Write a user record. */
  method SerializeUser(user: User, out: Output)
    modifies out
    ensures out.tokens == old(out.tokens) + UserTokens(user)
  {
    out.WriteInt(user.id);
    out.WriteBoolean(user.isDBA);
    out.WriteBoolean(user.isR);
    out.WriteBoolean(user.isW);
    out.WriteBoolean(user.passwordRequired);
    out.WriteString(user.nameDB);
    out.WriteLong(user.passwordCRC);
  }

  /**
   * Read a user record whose id the caller has already read (`userId`);
   * `nameOS` stands for the OS user name the source takes from the system
   * properties.
   */
  method DeSerializeUser(input: Input, nameOS: string, userId: int) returns (r: Result<User, CodecError>)
    modifies input
    ensures match UserAt(input.tokens, old(input.cursor), userId, nameOS)
            case Ok(d) => r == Ok(d.value) && input.cursor == d.next
            case Err(e) => r == Err(e)
  {
    var dba :- input.ReadBoolean();
    var rAccess :- input.ReadBoolean();
    var wAccess :- input.ReadBoolean();
    var pw :- input.ReadBoolean();
    var nameDB :- input.ReadString();
    var crc :- input.ReadLong();
    r := Ok(User(userId, nameOS, dba, rAccess, wAccess, pw, nameDB, crc));
  }
}

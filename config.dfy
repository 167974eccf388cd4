/**
 * A model of the behaviour in dbpack's configuration package: the
 * case-insensitive decoder of a listener's protocol type and the
 * single-driver selector of the distributed-transaction storage block.
 */
module Config {

  // ---------------------------------------------------------------------
  // Results and errors
  // ---------------------------------------------------------------------

  datatype Option<+T> = None | Some(value: T)

  datatype Result<+R, +E> = Success(value: R) | Failure(error: E)

  /** Go's `error` return: `nil` is `Pass`. */
  datatype Outcome<+E> = Pass | Fail(error: E)

  /** The failures of decoding a protocol type. */
  datatype DecodeError =
    | NilTarget                                    // the target pointer is nil
    | UnrecognizedProtocolType(text: seq<byte>)    // carries the text as given, before lowercasing

  /** The panics of the storage selector, made into values. */
  datatype StorageError =
    | MultipleStorageDrivers(drivers: set<string>) // `Type` sees more than one driver
    | NilParameterMap(driver: string)              // a write into the absent (nil) map of `driver`

  // ---------------------------------------------------------------------
  // Bytes and ASCII case
  // ---------------------------------------------------------------------

  newtype byte = x: int | 0 <= x < 256

  /** The bytes of an ASCII string literal. */
  function Ascii(s: string): (r: seq<byte>)
    requires forall i :: 0 <= i < |s| ==> s[i] as int < 128
    ensures |r| == |s|
    ensures forall i :: 0 <= i < |s| ==> r[i] as int == s[i] as int
  {
    if s == [] then [] else [s[0] as int as byte] + Ascii(s[1..])
  }

  predicate IsUpper(b: byte) {
    'A' as int <= b as int <= 'Z' as int
  }

  /** ASCII lowercase of one byte; every other byte is left as it is. */
  function LowerByte(b: byte): byte {
    if IsUpper(b) then b + 32 else b
  }

  /**
   * `bytes.ToLower` on ASCII text: every upper-case letter becomes its
   * lower-case letter and nothing else changes.
   */
  function ToLower(text: seq<byte>): (r: seq<byte>)
    ensures |r| == |text|
    ensures forall i :: 0 <= i < |text| ==> !IsUpper(r[i])
    ensures forall i :: 0 <= i < |text| ==>
      r[i] == text[i] || (IsUpper(text[i]) && r[i] as int == text[i] as int + 32)
  {
    if text == [] then [] else [LowerByte(text[0])] + ToLower(text[1..])
  }

  /** Two bytes are the same letter up to ASCII case, or the same byte. */
  predicate SameIgnoringCase(x: byte, y: byte) {
    || x == y
    || (IsUpper(x) && x as int + 32 == y as int)
    || (IsUpper(y) && y as int + 32 == x as int)
  }

  /** Reference definition of ASCII case-insensitive equality. */
  predicate EqualFold(a: seq<byte>, b: seq<byte>) {
    |a| == |b| && forall i :: 0 <= i < |a| ==> SameIgnoringCase(a[i], b[i])
  }

  lemma {:induction false} ToLowerAt(text: seq<byte>, i: int)
    requires 0 <= i < |text|
    ensures ToLower(text)[i] == LowerByte(text[i])
  {
    if i > 0 {
      ToLowerAt(text[1..], i - 1);
    }
  }

  /** Lowercasing identifies exactly the texts that are equal up to case. */
  lemma ToLowerEqualIffEqualFold(a: seq<byte>, b: seq<byte>)
    ensures ToLower(a) == ToLower(b) <==> EqualFold(a, b)
  {
    if EqualFold(a, b) {
      forall i | 0 <= i < |a| ensures ToLower(a)[i] == ToLower(b)[i] {
        ToLowerAt(a, i);
        ToLowerAt(b, i);
      }
    }
    if ToLower(a) == ToLower(b) {
      forall i | 0 <= i < |a| ensures SameIgnoringCase(a[i], b[i]) {
        ToLowerAt(a, i);
        ToLowerAt(b, i);
      }
    }
  }

  /** Text without upper-case letters is its own lowercase form. */
  lemma {:induction false} ToLowerOfLowercase(text: seq<byte>)
    requires forall i :: 0 <= i < |text| ==> !IsUpper(text[i])
    ensures ToLower(text) == text
  {
    if text != [] {
      ToLowerOfLowercase(text[1..]);
    }
  }

  // ---------------------------------------------------------------------
  // Protocol type
  // ---------------------------------------------------------------------

  /** Go's `ProtocolType int32`. */
  newtype ProtocolType = x: int | -0x8000_0000 <= x < 0x8000_0000

  /** The declared constants, in `iota` order. */
  const Http: ProtocolType := 0
  const Mysql: ProtocolType := 1

  const HttpText: seq<byte> := Ascii("http")
  const MysqlText: seq<byte> := Ascii("mysql")

  predicate IsDeclared(p: ProtocolType) {
    p == Http || p == Mysql
  }

  /** The lower-case literal each declared protocol type is written as. */
  function Literal(p: ProtocolType): (r: seq<byte>)
    requires IsDeclared(p)
    ensures forall i :: 0 <= i < |r| ==> !IsUpper(r[i])
  {
    if p == Mysql then MysqlText else HttpText
  }

  /**
   * The switch of `unmarshalText`: the already-lowercased text must be one
   * of the two literals, byte for byte.
   */
  function Recognize(lowered: seq<byte>): (r: Option<ProtocolType>)
    ensures forall p :: r == Some(p) <==> IsDeclared(p) && Literal(p) == lowered
  {
    if lowered == MysqlText then Some(Mysql)
    else if lowered == HttpText then Some(Http)
    else None
  }

  /**
   * What `UnmarshalText` decides for a non-nil target: the protocol type
   * the text names, or the error carrying the text as given.
   */
  function Decode(text: seq<byte>): (r: Result<ProtocolType, DecodeError>)
    ensures r.Success? ==> IsDeclared(r.value) && Literal(r.value) == ToLower(text)
    ensures r.Failure? <==> ToLower(text) != MysqlText && ToLower(text) != HttpText
    ensures r.Failure? ==> r.error == UnrecognizedProtocolType(text)
  {
    match Recognize(ToLower(text))
    case Some(p) => Success(p)
    case None => Failure(UnrecognizedProtocolType(text))
  }

  /**
   * Decoding is case-insensitive: the texts that decode to `Mysql` are
   * exactly those equal to "mysql" up to case, likewise for `Http`, and
   * every other text is refused with an error carrying that text.
   */
  lemma DecodeIsCaseInsensitive(text: seq<byte>)
    ensures Decode(text) == Success(Mysql) <==> EqualFold(text, MysqlText)
    ensures Decode(text) == Success(Http) <==> EqualFold(text, HttpText)
    ensures Decode(text) == Failure(UnrecognizedProtocolType(text)) <==>
      !EqualFold(text, MysqlText) && !EqualFold(text, HttpText)
  {
    ToLowerOfLowercase(MysqlText);
    ToLowerOfLowercase(HttpText);
    ToLowerEqualIffEqualFold(text, MysqlText);
    ToLowerEqualIffEqualFold(text, HttpText);
  }

  /** Two texts equal up to case decode alike. */
  lemma DecodeRespectsEqualFold(a: seq<byte>, b: seq<byte>)
    requires EqualFold(a, b)
    ensures Decode(a).Success? <==> Decode(b).Success?
    ensures Decode(a).Success? ==> Decode(a).value == Decode(b).value
  {
    ToLowerEqualIffEqualFold(a, b);
  }

  /** Each declared protocol type decodes from its own literal. */
  lemma DecodeLiteral(p: ProtocolType)
    requires IsDeclared(p)
    ensures Decode(Literal(p)) == Success(p)
  {
    ToLowerOfLowercase(Literal(p));
  }

  /** Three spellings of http decode to `Http`. */
  lemma DecodeHttpSpellings()
    ensures Decode(Ascii("HTTP")) == Success(Http)
    ensures Decode(Ascii("Http")) == Success(Http)
    ensures Decode(Ascii("http")) == Success(Http)
  {
    DecodeIsCaseInsensitive(Ascii("HTTP"));
    DecodeIsCaseInsensitive(Ascii("Http"));
    DecodeIsCaseInsensitive(Ascii("http"));
  }

  /** A mixed-case mysql decodes to `Mysql`. */
  lemma DecodeMysqlSpelling()
    ensures Decode(Ascii("MySQL")) == Success(Mysql)
  {
    DecodeIsCaseInsensitive(Ascii("MySQL"));
  }

  /** "tcp" is refused with an error carrying "tcp". */
  lemma DecodeTcpRefused()
    ensures Decode(Ascii("tcp")) == Failure(UnrecognizedProtocolType(Ascii("tcp")))
  {
    DecodeIsCaseInsensitive(Ascii("tcp"));
  }

  /** An addressable `ProtocolType` variable, the target of decoding. */
  class ProtocolTypeSlot {
    var value: ProtocolType

    /** A fresh variable holds Go's zero value, which is `Http`. */
    constructor ()
      ensures value == Http
    {
      value := 0;
    }

    /**
     * `unmarshalText`: assigns the recognised protocol type and reports
     * success; on anything else reports failure and leaves the value.
     */
    method UnmarshalLowered(lowered: seq<byte>) returns (ok: bool)
      modifies this
      ensures ok <==> lowered == MysqlText || lowered == HttpText
      ensures value == (if ok then Recognize(lowered).value else old(value))
    {
      if lowered == MysqlText {
        value := Mysql;
      } else if lowered == HttpText {
        value := Http;
      } else {
        return false;
      }
      return true;
    }
  }

  /**
   * `UnmarshalText`: fails on a nil target without assigning anything;
   * otherwise assigns the decoded protocol type, or fails carrying the
   * original text and keeps the previous value.
   */
  method UnmarshalText(t: ProtocolTypeSlot?, text: seq<byte>) returns (out: Outcome<DecodeError>)
    modifies t
    ensures t == null ==> out == Fail(NilTarget)
    ensures t != null ==> match Decode(text)
      case Success(p) => out == Pass && t.value == p
      case Failure(e) => out == Fail(e) && t.value == old(t.value)
  {
    if t == null {
      return Fail(NilTarget);
    }
    var ok := t.UnmarshalLowered(ToLower(text));
    if !ok {
      return Fail(UnrecognizedProtocolType(text));
    }
    return Pass;
  }

  // ---------------------------------------------------------------------
  // Storage selector
  // ---------------------------------------------------------------------

  /** The untyped values of a parameter map, as a YAML document yields them. */
  datatype Value =
    | Null
    | Bool(b: bool)
    | Int(i: int)
    | Str(s: string)
    | List(items: seq<Value>)
    | Dict(entries: map<string, Value>)

  /** Go's `Parameters` map; a Go map is a reference, so it is a class here. */
  class ParameterMap {
    var entries: map<string, Value>
  }

  /** Go's `Storage`: driver name to that driver's map; `null` is a nil map. */
  type Storage = map<string, ParameterMap?>

  /** The contents of a storage, with `None` for a nil parameter map. */
  type StorageView = map<string, Option<map<string, Value>>>

  ghost function View(storage: Storage): (v: StorageView)
    reads storage.Values
    ensures v.Keys == storage.Keys
  {
    map k | k in storage :: if storage[k] == null then None else Some(storage[k].entries)
  }

  /** A one-element set has no two distinct members. */
  lemma SoleMember(s: set<string>, a: string, b: string)
    requires |s| == 1 && a in s && b in s
    ensures a == b
  {
    var rest := s - {a};
    assert |rest| == 0;
    assert rest == {};
    assert b !in rest;
  }

  /**
   * What `Type` returns for a storage with driver names `drivers`: "" for
   * none, the sole name for one, and the ambiguous-driver fault otherwise.
   */
  function DriverType(drivers: set<string>): (r: Result<string, StorageError>)
    ensures r.Success? <==> |drivers| <= 1
    ensures |drivers| == 0 ==> r == Success("")
    ensures |drivers| == 1 ==> r.Success? && drivers == {r.value}
    ensures |drivers| > 1 ==> r == Failure(MultipleStorageDrivers(drivers))
  {
    if |drivers| > 1 then Failure(MultipleStorageDrivers(drivers))
    else if |drivers| == 1 then
      var k :| k in drivers;
      assert drivers == {k} by {
        forall j | j in drivers ensures j == k { SoleMember(drivers, j, k); }
      }
      Success(k)
    else Success("")
  }

  /**
   * `Type`: collects the driver names one by one, then faults on more
   * than one, returns the sole one, or returns "" for none.
   */
  method Type(storage: Storage) returns (r: Result<string, StorageError>)
    ensures |storage| == 0 ==> r == Success("")
    ensures |storage| == 1 ==> r.Success? && storage.Keys == {r.value}
    ensures |storage| > 1 ==> r == Failure(MultipleStorageDrivers(storage.Keys))
    ensures r == DriverType(storage.Keys)
  {
    var storageType: seq<string> := [];
    var rest := storage.Keys;
    while rest != {}
      invariant rest <= storage.Keys
      invariant forall k :: k in storageType ==> k in storage
      invariant forall k :: k in storage ==> (k in storageType <==> k !in rest)
      invariant |storageType| + |rest| == |storage|
      decreases rest
    {
      var k :| k in rest;
      storageType := storageType + [k];
      rest := rest - {k};
    }
    if |storageType| > 1 {
      return Failure(MultipleStorageDrivers(storage.Keys));
    }
    if |storageType| == 1 {
      assert storage.Keys == {storageType[0]} by {
        forall j | j in storage ensures j == storageType[0] {
          SoleMember(storage.Keys, j, storageType[0]);
        }
      }
      return Success(storageType[0]);
    }
    return Success("");
  }

  /** Go's map index: the entry under `k`, or the zero value (nil) when absent. */
  function Lookup(storage: Storage, k: string): ParameterMap? {
    if k in storage then storage[k] else null
  }

  /**
   * `Parameters`: the map of the sole driver, nil when no driver is
   * configured, and the ambiguous-driver fault with more than one.
   */
  function Parameters(storage: Storage): (r: Result<ParameterMap?, StorageError>)
    ensures r.Failure? <==> |storage| > 1
    ensures r.Failure? ==> r.error == MultipleStorageDrivers(storage.Keys)
    ensures |storage| == 0 ==> r == Success(null)
    ensures forall k :: k in storage && |storage| == 1 ==> r == Success(storage[k])
  {
    match DriverType(storage.Keys)
    case Failure(e) => Failure(e)
    case Success(k) => Success(Lookup(storage, k))
  }

  /**
   * What `setParameter` does to the contents of a storage: writes
   * `key := value` into the active driver's map, or faults.
   */
  function SetParameterIn(view: StorageView, key: string, value: Value): (r: Result<StorageView, StorageError>)
    ensures r.Success? <==> |view| == 1 && forall k :: k in view ==> view[k].Some?
    ensures |view| > 1 ==> r == Failure(MultipleStorageDrivers(view.Keys))
    ensures |view| == 0 ==> r == Failure(NilParameterMap(""))
    ensures forall k :: k in view && |view| == 1 && view[k].None? ==> r == Failure(NilParameterMap(k))
  {
    match DriverType(view.Keys)
    case Failure(e) => Failure(e)
    case Success(k) =>
      if k in view && view[k].Some? then Success(view[k := Some(view[k].value[key := value])])
      else Failure(NilParameterMap(k))
  }

  /**
   * A successful `setParameter` keeps the driver names, makes the driver's
   * map send `key` to `value`, and leaves every other entry as it was.
   */
  lemma SetParameterEffects(view: StorageView, key: string, value: Value, driver: string)
    requires driver in view && SetParameterIn(view, key, value).Success?
    ensures var after := SetParameterIn(view, key, value).value;
      && after.Keys == view.Keys
      && after[driver].Some?
      && after[driver].value.Keys == view[driver].value.Keys + {key}
      && after[driver].value[key] == value
      && forall j :: j in view[driver].value && j != key ==> after[driver].value[j] == view[driver].value[j]
  {
    assert DriverType(view.Keys) == Success(driver);
  }

  /** Writes only ever keep the at-most-one-driver invariant and the driver name. */
  lemma SetParameterKeepsDriverType(view: StorageView, key: string, value: Value)
    requires SetParameterIn(view, key, value).Success?
    ensures DriverType(SetParameterIn(view, key, value).value.Keys) == DriverType(view.Keys)
    ensures DriverType(view.Keys).Success? && DriverType(view.Keys).value in view
  {
  }

  /** A second write to the same key overwrites the first. */
  lemma SetParameterOverwrites(view: StorageView, key: string, x: Value, y: Value)
    requires SetParameterIn(view, key, x).Success?
    ensures SetParameterIn(SetParameterIn(view, key, x).value, key, y) == SetParameterIn(view, key, y)
  {
    var k := DriverType(view.Keys).value;
    var once := SetParameterIn(view, key, x).value;
    assert once.Keys == view.Keys;
    assert DriverType(once.Keys) == Success(k);
    var m := view[k].value;
    assert once == view[k := Some(m[key := x])];
    assert m[key := x][key := y] == m[key := y];
    assert once[k := Some(m[key := y])] == view[k := Some(m[key := y])];
  }

  /**
   * `setParameter`: writes `key := value` into the sole driver's map in
   * place; with no driver, several drivers or a nil map it faults and
   * changes nothing.
   */
  method SetParameter(storage: Storage, key: string, value: Value) returns (out: Outcome<StorageError>)
    modifies storage.Values
    ensures var spec := SetParameterIn(old(View(storage)), key, value);
      && (out.Pass? <==> spec.Success?)
      && (spec.Success? ==> View(storage) == spec.value)
      && (spec.Failure? ==> out == Fail(spec.error) && View(storage) == old(View(storage)))
    ensures out.Pass? ==>
      && Parameters(storage).Success? && Parameters(storage).value != null
      && key in Parameters(storage).value.entries && Parameters(storage).value.entries[key] == value
  {
    var t := Type(storage);
    if t.Failure? {
      return Fail(t.error);
    }
    var p := Lookup(storage, t.value);
    if p == null {
      return Fail(NilParameterMap(t.value));
    }
    p.entries := p.entries[key := value];
    return Pass;
  }

  /** One driver, two drivers and none: what `Parameters` and `DriverType` give. */
  lemma StorageExamples(fs: ParameterMap?, s3: ParameterMap?)
    ensures Parameters(map["fs" := fs]) == Success(fs)
    ensures Parameters(map["fs" := fs, "s3" := s3]) == Failure(MultipleStorageDrivers({"fs", "s3"}))
    ensures Parameters(map[]) == Success(null)
    ensures DriverType({"fs"}) == Success("fs")
  {
    assert map["fs" := fs, "s3" := s3].Keys == {"fs", "s3"};
  }
}

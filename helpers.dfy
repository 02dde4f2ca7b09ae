/**
 * The small conversions of the utils package: pointer dereference with a
 * zero default, UUID text conversion, the empty-tolerant JSON decode of a
 * plan's feature limits, and random password generation.
 */
module Helpers {
  import opened Common

  /**
   * DerefString, DerefBool, DerefInt32, DerefFloat64 and DerefUUID: a nil
   * pointer reads as the zero value of its type, any other as what it points at.
   */
  function Deref<T>(p: Option<T>, zero: T): T
  {
    if p.None? then zero else p.value
  }

  /** ToUUIDPtr: uuid.Nil becomes a nil pointer, any other id a pointer to it. */
  function ToUUIDPtr(u: Uuid): (p: Option<Uuid>)
    ensures p.None? <==> u == Nil
  {
    if u == Nil then None else Some(u)
  }

  /** Dereferencing the pointer ToUUIDPtr makes gives the id back, uuid.Nil included. */
  lemma DerefToUUIDPtr(u: Uuid)
    ensures Deref(ToUUIDPtr(u), Nil) == u
  {
  }

  /** ToUUIDPtr undoes DerefUUID on every pointer that does not point at uuid.Nil. */
  lemma ToUUIDPtrDeref(p: Option<Uuid>)
    requires p != Some(Nil)
    ensures ToUUIDPtr(Deref(p, Nil)) == p
  {
  }

  /**
   * `pgtype.Text{String: s, Valid: s != ""}`, the services' way of storing
   * an optional string: the empty string is NULL.
   */
  function NonEmptyText(s: string): (t: NullText)
    ensures t.valid <==> s != ""
    ensures t.text == s
  {
    NullText(s, s != "")
  }

  /**
   * `pgtype.Text{String: DerefString(p), Valid: p != nil}`, an update
   * parameter: NULL (keep the column) exactly when no value was given.
   */
  function PtrText(p: Option<string>): (t: NullText)
    ensures t.valid <==> p.Some?
    ensures p.Some? ==> t.text == p.value
  {
    NullText(Deref(p, ""), p.Some?)
  }

  /** `pgtype.Bool{Bool: DerefBool(p), Valid: p != nil}`. */
  function PtrBool(p: Option<bool>): (b: NullBool)
    ensures b.valid <==> p.Some?
    ensures p.Some? ==> b.flag == p.value
  {
    NullBool(Deref(p, false), p.Some?)
  }

  /**
   * The URL an optional file upload yields: None when no file was sent,
   * an error when the upload failed; the services store "" in both cases.
   */
  function UploadedUrl(upload: Option<Result<string>>): (url: string)
    ensures upload.Some? && upload.value.Ok? ==> url == upload.value.value
    ensures upload.None? || upload.value.Err? ==> url == ""
  {
    if upload.Some? && upload.value.Ok? then upload.value.value else ""
  }

  /**
   * An update's URL column after an optional upload: set, to the URL, only
   * when a file was sent and its upload succeeded.
   */
  function UploadedColumn(upload: Option<Result<string>>): (t: NullText)
    ensures t.valid <==> upload.Some? && upload.value.Ok?
    ensures t.valid ==> t.text == upload.value.value
  {
    if upload.Some? && upload.value.Ok? then NullText(upload.value.value, true) else NullText("", false)
  }

  /** ParseUUID: the empty string and any text uuid.Parse rejects both give uuid.Nil. */
  function ParseUUID(s: string, parse: string -> Option<Uuid>): (u: Uuid)
    ensures u != Nil ==> s != "" && parse(s) == Some(u)
    ensures parse(s).Some? && s != "" ==> u == parse(s).value
  {
    if s == "" then Nil
    else match parse(s)
      case None => Nil
      case Some(v) => v
  }

  /** UUIDToString: uuid.Nil is written as the empty string, any other id in its canonical form. */
  function UUIDToString(u: Uuid, format: Uuid -> string): (s: string)
    ensures u == Nil ==> s == ""
    ensures u != Nil ==> s == format(u)
  {
    if u == Nil then "" else format(u)
  }

  /**
   * Writing an id as text and parsing it back gives the id, uuid.Nil
   * included, whenever uuid.Parse reads the canonical form of `u` back as `u`.
   */
  lemma UuidTextRoundTrip(u: Uuid, parse: string -> Option<Uuid>, format: Uuid -> string)
    requires u != Nil ==> format(u) != "" && parse(format(u)) == Some(u)
    ensures ParseUUID(UUIDToString(u, format), parse) == u
  {
  }

  /**
   * UnmarshalJSON into a zero FeatureLimits: empty data is no error and
   * leaves the limits zero; data that does not decode is an error.
   */
  function UnmarshalFeatures(blob: FeatureBlob): (r: Result<FeatureLimits>)
    ensures r.Err? <==> blob == MalformedBlob
    ensures blob == EmptyBlob ==> r == Ok(ZeroLimits)
    ensures blob.FeatureDoc? ==> r == Ok(blob.limits)
  {
    match blob
      case EmptyBlob => Ok(ZeroLimits)
      case FeatureDoc(limits) => Ok(limits)
      case MalformedBlob => Err("invalid character in features JSON")
  }

  /**
   * What the services that only log a decode error go on with: the decoded
   * limits, or all-zero limits when the document does not decode.
   */
  function FeaturesOrZero(blob: FeatureBlob): (f: FeatureLimits)
    ensures blob.FeatureDoc? ==> f == blob.limits
    ensures !blob.FeatureDoc? ==> f == ZeroLimits
  {
    var r := UnmarshalFeatures(blob);
    if r.Err? then ZeroLimits else r.value
  }

  /** Lower case, upper case, digits and the symbols a generated password draws from. */
  const Charset: string :=
    "abcdefghijklmnopqrstuvwxyz" + "ABCDEFGHIJKLMNOPQRSTUVWXYZ" + "0123456789" + "!@#$%^&*()_+-=[]{}|;:,.<>?"

  /** An index crypto/rand may draw below |Charset|. */
  type CharsetIndex = k: nat | k < 88

  lemma CharsetLength()
    ensures |Charset| == 88
  {
  }

  /**
   * GeneratePassword(length): the i-th character is the charset character at
   * the i-th random draw; the first draw that fails ends generation with an
   * error. `rand(i)` is the outcome of the i-th call of rand.Int.
   */
  method GeneratePassword(length: nat, rand: nat -> Option<CharsetIndex>) returns (r: Result<string>)
    ensures r.Ok? <==> forall i :: 0 <= i < length ==> rand(i).Some?
    ensures r.Ok? ==> |r.value| == length
    ensures r.Ok? ==> forall i :: 0 <= i < length ==> rand(i).Some? && r.value[i] == Charset[rand(i).value]
  {
    CharsetLength();
    var password := new char[length];
    var i := 0;
    while i < length
      invariant 0 <= i <= length
      invariant forall j :: 0 <= j < i ==> rand(j).Some? && password[j] == Charset[rand(j).value]
    {
      var draw := rand(i);
      if draw.None? {
        return Err("crypto/rand: read failed");
      }
      password[i] := Charset[draw.value];
      i := i + 1;
    }
    return Ok(password[..]);
  }

  /** Every character of a generated password is a charset character. */
  lemma PasswordFromCharset(pw: string, length: nat, rand: nat -> Option<CharsetIndex>)
    requires |pw| == length
    requires forall i :: 0 <= i < length ==> rand(i).Some? && pw[i] == Charset[rand(i).value]
    ensures forall c :: c in pw ==> c in Charset
  {
    CharsetLength();
    forall c | c in pw
      ensures c in Charset
    {
      var i :| 0 <= i < |pw| && pw[i] == c;
      assert Charset[rand(i).value] == c;
    }
  }
}

/**
 * The overseer-facing part of the web server: merging a JSON update into a
 * configuration, blanking credentials, capturing a screen image with
 * retries, and the status filters of the game-data broadcast and the
 * screen share.
 *
 * The configuration is seen the way reflection sees it: a struct is a
 * sequence of named fields, each exported or not, holding either a nested
 * struct or a scalar of some Go type. The update is a decoded JSON object.
 */
module OverseerKooloApi {
  import opened Common
  import opened Config

  // ---------------------------------------------------------------------------
  // Values as reflection sees them.

  datatype Kind = Int64Kind | BoolKind | StringKind | Float64Kind | OtherKind

  /** A Go type: its name ("int64", "config.Difficulty", ...) and its kind. */
  datatype GoType = GoType(name: string, kind: Kind)

  /** A decoded JSON value, as encoding/json produces it into interface{}. */
  datatype JsonValue =
    | JNull
    | JNumber(r: real)
    | JBool(b: bool)
    | JString(s: string)
    | JArray(items: seq<JsonValue>)
    | JObject(entries: map<string, JsonValue>)

  /** What a scalar field holds. */
  datatype Datum = DInt(i: int) | DFloat(r: real) | DBool(b: bool) | DString(s: string) | DJson(j: JsonValue)

  datatype Value = Struct(fields: seq<Field>) | Scalar(ty: GoType, datum: Datum)

  datatype Field = Field(name: string, exported: bool, value: Value)

  /** Go types are never two fields of one struct with the same name. */
  predicate WellFormed(fs: seq<Field>)
    decreases fs
  {
    && (forall i, j :: 0 <= i < j < |fs| ==> fs[i].name != fs[j].name)
    && (forall i :: 0 <= i < |fs| ==> WellFormedField(fs[i]))
  }

  predicate WellFormedField(f: Field)
    decreases f
  {
    f.value.Struct? ==> WellFormed(f.value.fields)
  }

  /** FieldByName: the index of the field called `name`, if any. */
  function Lookup(fs: seq<Field>, name: string): (r: Option<nat>)
    ensures r.Some? ==> r.value < |fs| && fs[r.value].name == name
    ensures r.None? ==> forall j :: 0 <= j < |fs| ==> fs[j].name != name
  {
    if fs == [] then None
    else if fs[0].name == name then Some(0)
    else match Lookup(fs[1..], name)
      case None => None
      case Some(j) => Some(j + 1)
  }

  /** The dynamic type reflect.ValueOf gives a decoded JSON value; JSON null has none. */
  function JsonType(u: JsonValue): Option<GoType> {
    match u
    case JNull => None
    case JNumber(_) => Some(GoType("float64", Float64Kind))
    case JBool(_) => Some(GoType("bool", BoolKind))
    case JString(_) => Some(GoType("string", StringKind))
    case JArray(_) => Some(GoType("[]interface {}", OtherKind))
    case JObject(_) => Some(GoType("map[string]interface {}", OtherKind))
  }

  function JsonDatum(u: JsonValue): Datum {
    match u
    case JNumber(r) => DFloat(r)
    case JBool(b) => DBool(b)
    case JString(s) => DString(s)
    case _ => DJson(u)
  }

  /** Go's int64(f): truncation toward zero. */
  function Trunc(r: real): (t: int)
    ensures r >= 0.0 ==> 0 <= t && t as real <= r < t as real + 1.0
    ensures r < 0.0 ==> t <= 0 && t as real - 1.0 < r <= t as real
  {
    if r >= 0.0 then r.Floor else -((-r).Floor)
  }

  /**
   * How a merge ends: an error it returns, or a run-time panic of the
   * reflection package (Value.Type on the zero Value of JSON null, or
   * Value.Set of a value whose type is not assignable to the field's).
   */
  datatype Failure = CannotSet(field: string) | Mismatch(field: string) | Panic

  function FailureText(f: Failure): string
    requires !f.Panic?
  {
    match f
    case CannotSet(name) => "field cannot be set: " + name
    case Mismatch(name) => "type mismatch for field: " + name
  }

  datatype ScalarOutcome = SetTo(datum: Datum) | Fails(failure: Failure)

  /**
   * Setting a scalar field of type `ty` from JSON `u`. The same type is set
   * as it is; a JSON number into an int64-kind field is truncated; the
   * bool/bool and string/string branches with different types reach
   * Value.Set, which panics because both types are named. A number
   * truncated into a named int64 type (time.Duration, say) panics the same way.
   */
  function SetScalar(name: string, ty: GoType, u: JsonValue): (r: ScalarOutcome)
    ensures r.SetTo? ==> JsonType(u).Some? && (JsonType(u).value == ty || (ty == GoType("int64", Int64Kind) && u.JNumber?))
    ensures r.Fails? && r.failure.Mismatch? ==> r.failure.field == name
    ensures u.JNull? ==> r == Fails(Panic)
  {
    match JsonType(u)
    case None => Fails(Panic)
    case Some(vt) =>
      if ty == vt then SetTo(JsonDatum(u))
      else if ty.kind == Int64Kind && vt.kind == Float64Kind then
        (if ty == GoType("int64", Int64Kind) then SetTo(DInt(Trunc(u.r))) else Fails(Panic))
      else if ty.kind == BoolKind && vt.kind == BoolKind then Fails(Panic)
      else if ty.kind == StringKind && vt.kind == StringKind then Fails(Panic)
      else Fails(Mismatch(name))
  }

  // ---------------------------------------------------------------------------
  // The merge, as a specification.

  /** Whether updating field `f` with `u` goes through without an error or a panic. */
  predicate UpdateOk(f: Field, u: JsonValue)
    decreases f
  {
    && f.exported
    && match f.value
       case Struct(fs) => u.JObject? && AllOk(fs, u.entries)
       case Scalar(ty, _) => SetScalar(f.name, ty, u).SetTo?
  }

  /** Every update key that names a field can be applied to it. */
  predicate AllOk(fs: seq<Field>, updates: map<string, JsonValue>)
    decreases fs
  {
    forall i :: 0 <= i < |fs| && fs[i].name in updates ==> UpdateOk(fs[i], updates[fs[i].name])
  }

  /** Field `f` after a successful update with `u`. */
  function ApplyField(f: Field, u: JsonValue): Field
    decreases f
  {
    match f.value
    case Struct(fs) => if u.JObject? then f.(value := Struct(ApplyAll(fs, u.entries))) else f
    case Scalar(ty, _) =>
      match SetScalar(f.name, ty, u)
      case SetTo(d) => f.(value := Scalar(ty, d))
      case Fails(_) => f
  }

  /** Every field named by an update key updated, every other field as it was. */
  function ApplyAll(fs: seq<Field>, updates: map<string, JsonValue>): (r: seq<Field>)
    decreases fs
  {
    seq(|fs|, i requires 0 <= i < |fs| => if fs[i].name in updates then ApplyField(fs[i], updates[fs[i].name]) else fs[i])
  }

  /**
   * What field `f` may be after a merge, whole or cut short by a failure:
   * a field no key names is as it was; a named one is either not reached yet
   * (as it was) or as UpdateField leaves it.
   */
  predicate Touched(f: Field, g: Field, updates: map<string, JsonValue>)
    decreases f, 1
  {
    && g.name == f.name
    && (f.name !in updates ==> g == f)
    && (f.name in updates ==> g == f || AfterUpdate(f, g, updates[f.name]))
  }

  /**
   * Field `f` after UpdateField with `u`: updated when that goes through;
   * otherwise an exported struct given an object keeps its name and flag
   * while each of its own fields is left as a failed merge may leave it;
   * a field not exported, a struct given anything else, or a scalar that
   * cannot be set is unchanged.
   */
  predicate AfterUpdate(f: Field, g: Field, u: JsonValue)
    decreases f, 0
  {
    if UpdateOk(f, u) then g == ApplyField(f, u)
    else if f.exported && f.value.Struct? && u.JObject? then
      && g.value.Struct?
      && g == f.(value := g.value)
      && |g.value.fields| == |f.value.fields|
      && forall i :: 0 <= i < |f.value.fields| ==> Touched(f.value.fields[i], g.value.fields[i], u.entries)
    else g == f
  }

  // ---------------------------------------------------------------------------
  // The merge, as the code does it: in place, one update key at a time.

  /** One key of the update against the field it names. */
  method UpdateField(f: Field, u: JsonValue) returns (g: Field, err: Option<Failure>)
    requires WellFormedField(f)
    ensures err.None? <==> UpdateOk(f, u)
    ensures err.None? ==> g == ApplyField(f, u)
    ensures g.name == f.name
    ensures err.Some? && !err.value.Panic? ==> err.value.field == f.name || f.value.Struct?
    ensures AfterUpdate(f, g, u)
    decreases f, 0
  {
    if !f.exported {
      return f, Some(CannotSet(f.name));
    }
    match f.value
    case Struct(fs) =>
      if !u.JObject? {
        return f, Some(Mismatch(f.name));
      }
      var merged, e := UpdateConfigField(fs, u.entries);
      g := f.(value := Struct(merged));
      return g, e;
    case Scalar(ty, _) =>
      var s := SetScalar(f.name, ty, u);
      if s.Fails? {
        return f, Some(s.failure);
      }
      return f.(value := Scalar(ty, s.datum)), None;
  }

  /**
   * updateConfigField: apply every key of `updates`, in the map's
   * unspecified order, skipping keys that name no field. The first failure
   * stops the merge; fields updated before it keep their new values.
   */
  method UpdateConfigField(fs: seq<Field>, updates: map<string, JsonValue>) returns (r: seq<Field>, err: Option<Failure>)
    requires WellFormed(fs)
    ensures |r| == |fs|
    ensures err.None? <==> AllOk(fs, updates)
    ensures err.None? ==> r == ApplyAll(fs, updates)
    ensures forall i :: 0 <= i < |fs| ==> Touched(fs[i], r[i], updates)
    decreases fs, 1
  {
    r := fs;
    var remaining := updates.Keys;
    while remaining != {}
      invariant remaining <= updates.Keys
      invariant |r| == |fs|
      invariant forall i :: 0 <= i < |fs| && fs[i].name !in updates.Keys - remaining ==> r[i] == fs[i]
      invariant forall i :: 0 <= i < |fs| && fs[i].name in updates.Keys - remaining ==>
                  UpdateOk(fs[i], updates[fs[i].name]) && r[i] == ApplyField(fs[i], updates[fs[i].name])
      decreases remaining
    {
      var key :| key in remaining;
      var idx := Lookup(fs, key);
      if idx.Some? {
        var i := idx.value;
        var g, e := UpdateField(fs[i], updates[key]);
        r := r[i := g];
        if e.Some? {
          return r, e;
        }
      }
      remaining := remaining - {key};
    }
    return r, None;
  }

  /** Keys that name no field change nothing and cannot fail. */
  lemma UnknownKeysIgnored(fs: seq<Field>, updates: map<string, JsonValue>, key: string, u: JsonValue)
    requires forall i :: 0 <= i < |fs| ==> fs[i].name != key
    ensures AllOk(fs, updates[key := u]) <==> AllOk(fs, updates - {key})
    ensures ApplyAll(fs, updates[key := u]) == ApplyAll(fs, updates - {key})
  {
  }

  /** With no update keys the merge succeeds and changes nothing. */
  lemma EmptyUpdateIsIdentity(fs: seq<Field>)
    ensures AllOk(fs, map[])
    ensures ApplyAll(fs, map[]) == fs
  {
  }

  /** A successful merge keeps every field's name, export flag and type. */
  lemma {:induction false} ApplyKeepsShape(fs: seq<Field>, updates: map<string, JsonValue>)
    requires AllOk(fs, updates)
    ensures SameShape(fs, ApplyAll(fs, updates))
    decreases fs
  {
    var r := ApplyAll(fs, updates);
    forall i | 0 <= i < |fs|
      ensures SameShapeField(fs[i], r[i])
    {
      if fs[i].name in updates {
        ApplyFieldKeepsShape(fs[i], updates[fs[i].name]);
      } else {
        SameShapeRefl(fs[i]);
      }
    }
  }

  lemma {:induction false} ApplyFieldKeepsShape(f: Field, u: JsonValue)
    requires UpdateOk(f, u)
    ensures SameShapeField(f, ApplyField(f, u))
    decreases f
  {
    if f.value.Struct? {
      ApplyKeepsShape(f.value.fields, u.entries);
    }
  }

  lemma {:induction false} SameShapeRefl(f: Field)
    ensures SameShapeField(f, f)
    decreases f
  {
    if f.value.Struct? {
      forall i | 0 <= i < |f.value.fields|
        ensures SameShapeField(f.value.fields[i], f.value.fields[i])
      {
        SameShapeRefl(f.value.fields[i]);
      }
    }
  }

  predicate SameShape(a: seq<Field>, b: seq<Field>)
    decreases a
  {
    |a| == |b| && forall i :: 0 <= i < |a| ==> SameShapeField(a[i], b[i])
  }

  predicate SameShapeField(f: Field, g: Field)
    decreases f
  {
    && g.name == f.name
    && g.exported == f.exported
    && match f.value
       case Struct(fs) => g.value.Struct? && SameShape(fs, g.value.fields)
       case Scalar(ty, _) => g.value.Scalar? && g.value.ty == ty
  }

  /** A JSON number merged into an int64 field is stored truncated toward zero. */
  lemma NumberIntoInt64(name: string, r: real)
    ensures SetScalar(name, GoType("int64", Int64Kind), JNumber(r)) == SetTo(DInt(Trunc(r)))
  {
  }

  /** A JSON string into a named string type (the difficulty, say) panics instead of setting it. */
  lemma StringIntoNamedStringPanics(name: string, s: string)
    ensures SetScalar(name, GoType("config.Difficulty", StringKind), JString(s)) == Fails(Panic)
  {
  }

  // ---------------------------------------------------------------------------
  // Credentials.

  /** getSanitizedConfig: a copy with the three credentials blanked. */
  function Sanitized(c: CharacterCfg): (s: CharacterCfg)
    ensures s.username == "" && s.password == "" && s.authToken == ""
    ensures s.(username := c.username, password := c.password, authToken := c.authToken) == c
  {
    c.(username := "", password := "", authToken := "")
  }

  /** Blanking is idempotent. */
  lemma SanitizedIdempotent(c: CharacterCfg)
    ensures Sanitized(Sanitized(c)) == Sanitized(c)
  {
  }

  /** getSanitizedConfigs: every configuration of the registry, sanitised. */
  method GetSanitizedConfigs(characters: map<string, CharacterCfg>) returns (dst: map<string, CharacterCfg>)
    ensures dst.Keys == characters.Keys
    ensures forall k :: k in dst ==> dst[k] == Sanitized(characters[k])
  {
    dst := map[];
    var remaining := characters.Keys;
    while remaining != {}
      invariant remaining <= characters.Keys
      invariant dst.Keys == characters.Keys - remaining
      invariant forall k :: k in dst ==> dst[k] == Sanitized(characters[k])
      decreases remaining
    {
      var key :| key in remaining;
      dst := dst[key := Sanitized(characters[key])];
      remaining := remaining - {key};
    }
  }

  // ---------------------------------------------------------------------------
  // Capturing an image with retries.

  /** What one attempt came to: GetImg failed, the JPEG encoding failed, or the encoded bytes. */
  datatype Attempt = GrabFailed(msg: string) | EncodeFailed(msg: string) | Encoded(bytes: seq<bv8>)

  /**
   * What GetImg and the encoder give on successive attempts; the last entry
   * stands for every attempt after it.
   */
  type Attempts = s: seq<Attempt> | |s| > 0 witness [GrabFailed("")]

  function At(s: Attempts, i: nat): Attempt {
    if i < |s| then s[i] else s[|s| - 1]
  }

  /** Encodings shorter than this are taken for a broken encoder. */
  const MinImageBytes: nat := 9999

  predicate Good(a: Attempt) {
    a.Encoded? && |a.bytes| >= MinImageBytes
  }

  function AttemptError(a: Attempt): string {
    match a
    case GrabFailed(msg) => msg
    case EncodeFailed(msg) => msg
    case Encoded(_) => "image too small"
  }

  /** The error recorded for attempt number k (counted from 1). */
  function AttemptErr(a: Attempt, k: nat): string {
    "attempt " + NatToDecimal(k) + ": " + AttemptError(a)
  }

  /** The errors of the first n attempts, in order. */
  function AttemptErrors(attempts: Attempts, n: nat): (r: seq<string>)
    ensures |r| == n
    ensures forall j :: 0 <= j < n ==> r[j] == AttemptErr(At(attempts, j), j + 1)
  {
    if n == 0 then [] else AttemptErrors(attempts, n - 1) + [AttemptErr(At(attempts, n - 1), n)]
  }

  /** Each error followed by a line break. */
  function Lines(errs: seq<string>): string {
    if errs == [] then "" else Lines(errs[..|errs| - 1]) + errs[|errs| - 1] + "\n"
  }

  const CaptureFailedHeader := "failed to capture image after multiple attempts:\n"
  const UnknownError := "unknown error"

  /** The number of attempts a retry bound allows: none for a bound of zero or less. */
  function Tries(maxRetries: int): nat {
    if maxRetries > 0 then maxRetries else 0
  }

  /** The first attempt among i .. n-1 that yields a usable image. */
  function FirstGood(attempts: Attempts, i: nat, n: nat): (r: Option<nat>)
    ensures r.Some? ==> i <= r.value < n && Good(At(attempts, r.value))
    ensures r.Some? ==> forall j: nat :: i <= j < r.value ==> !Good(At(attempts, j))
    ensures r.None? ==> forall j: nat :: i <= j < n ==> !Good(At(attempts, j))
    decreases n - i
  {
    if i >= n then None
    else if Good(At(attempts, i)) then Some(i)
    else FirstGood(attempts, i + 1, n)
  }

  /** The retry loop: the first usable encoding, or the errors of all attempts. */
  method RetryCapture(attempts: Attempts, maxRetries: int) returns (img: Option<seq<bv8>>, errs: seq<string>)
    ensures var g := FirstGood(attempts, 0, Tries(maxRetries));
            && (g.Some? ==> img == Some(At(attempts, g.value).bytes))
            && (g.None? ==> img == None && errs == AttemptErrors(attempts, Tries(maxRetries)))
  {
    errs := [];
    var i: nat := 0;
    while i < maxRetries
      invariant i <= Tries(maxRetries)
      invariant FirstGood(attempts, 0, Tries(maxRetries)) == FirstGood(attempts, i, Tries(maxRetries))
      invariant errs == AttemptErrors(attempts, i)
      decreases maxRetries - i
    {
      var a := At(attempts, i);
      if Good(a) {
        return Some(a.bytes), errs;
      }
      errs := errs + [AttemptErr(a, i + 1)];
      i := i + 1;
    }
    return None, errs;
  }

  /** The combined error text: the header, then one line per error. */
  method CombineErrors(errs: seq<string>) returns (combined: string)
    ensures combined == CaptureFailedHeader + Lines(errs)
  {
    combined := CaptureFailedHeader;
    for j := 0 to |errs|
      invariant combined == CaptureFailedHeader + Lines(errs[..j])
    {
      assert errs[..j + 1][..j] == errs[..j];
      combined := combined + errs[j] + "\n";
    }
    assert errs[..|errs|] == errs;
  }

  /**
   * captureImageWithRetry: at most maxRetries attempts, the i-th one
   * producing `At(attempts, i)`; the first encoding of at least 9999 bytes is
   * returned, otherwise an error listing every failed attempt.
   */
  method CaptureImageWithRetry(attempts: Attempts, maxRetries: int) returns (img: Option<seq<bv8>>, err: Option<string>)
    ensures var g := FirstGood(attempts, 0, Tries(maxRetries));
            && (g.Some? ==> img == Some(At(attempts, g.value).bytes) && err == None)
            && (g.None? && maxRetries > 0 ==> img == None && err == Some(CaptureFailedHeader + Lines(AttemptErrors(attempts, maxRetries))))
            && (maxRetries <= 0 ==> img == None && err == Some(UnknownError))
  {
    var errs;
    img, errs := RetryCapture(attempts, maxRetries);
    if img.Some? {
      return img, None;
    }
    if |errs| > 0 {
      var combined := CombineErrors(errs);
      return None, Some(combined);
    }
    return None, Some(UnknownError);
  }

  /** Each error adds a line, so the text is empty exactly when there are no errors. */
  lemma {:induction false} LinesEmpty(errs: seq<string>)
    ensures |errs| > 0 <==> Lines(errs) != ""
  {
    if |errs| > 0 {
      var p := Lines(errs[..|errs| - 1]) + errs[|errs| - 1];
      assert Lines(errs) == p + "\n";
      assert |Lines(errs)| > 0;
    }
  }

  /** An attempt's error is one line when the underlying message is. */
  lemma AttemptErrOneLine(a: Attempt, k: nat)
    requires '\n' !in AttemptError(a)
    ensures '\n' !in AttemptErr(a, k)
  {
    var d := NatToDecimal(k);
    assert forall j :: 0 <= j < |d| ==> d[j] != '\n';
    assert '\n' !in "attempt " && '\n' !in ": ";
    assert '\n' !in d;
  }

  /** One line per error: the text has as many line breaks as there are errors. */
  lemma {:induction false} LinesCount(errs: seq<string>)
    requires forall i :: 0 <= i < |errs| ==> '\n' !in errs[i]
    ensures multiset(Lines(errs))['\n'] == |errs|
  {
    if errs != [] {
      var n := |errs| - 1;
      LinesCount(errs[..n]);
      var p := Lines(errs[..n]);
      assert Lines(errs) == p + errs[n] + "\n";
      assert multiset(p + errs[n] + "\n") == multiset(p) + multiset(errs[n]) + multiset{'\n'};
      assert multiset(errs[n])['\n'] == 0;
    }
  }

  /** When no attempt message spans lines, the error text has exactly one line per attempt. */
  lemma AttemptLinesCount(attempts: Attempts, n: nat)
    requires forall i :: 0 <= i < n ==> '\n' !in AttemptError(At(attempts, i))
    ensures multiset(Lines(AttemptErrors(attempts, n)))['\n'] == n
  {
    var errs := AttemptErrors(attempts, n);
    forall i | 0 <= i < n
      ensures '\n' !in errs[i]
    {
      AttemptErrOneLine(At(attempts, i), i + 1);
    }
    LinesCount(errs);
  }

  // ---------------------------------------------------------------------------
  // Status filters.

  /** The supervisors whose game data is broadcast: those in game or paused. */
  method GameDataSupervisors(supervisors: seq<string>, statuses: map<string, SupervisorStatus>) returns (gd: set<string>)
    ensures forall s :: s in gd <==> s in supervisors && StatusOf(statuses, s) in {InGame, Paused}
  {
    gd := {};
    for i := 0 to |supervisors|
      invariant forall s :: s in gd <==> s in supervisors[..i] && StatusOf(statuses, s) in {InGame, Paused}
    {
      var st := StatusOf(statuses, supervisors[i]);
      if st == InGame || st == Paused {
        gd := gd + {supervisors[i]};
      }
      assert supervisors[..i + 1] == supervisors[..i] + [supervisors[i]];
    }
    assert supervisors[..|supervisors|] == supervisors;
  }

  /**
   * The HTTP answer of the screen share. The registry holds pointers, so a
   * ready supervisor without a configuration entry dereferences nil: `NilPanic`.
   */
  datatype Reply = BadRequest(text: string) | Jpeg(bytes: seq<bv8>) | NoReply | NilPanic

  const SupervisorRequired := "?supervisor= name is required"
  const NotReady := "not ready'"
  const ShareRetries := 10

  predicate ShareReady(st: SupervisorStatus) {
    st == InGame || st == Starting || st == Paused
  }

  /**
   * ShareScreen: a supervisor that is in game, starting or paused gets a
   * capture of its character's window with ten attempts; any other known
   * supervisor is not ready; an unknown one gets no reply at all.
   * `captured` is the character whose window is captured.
   * `attempts` are the capture attempts for that character.
   */
  method ShareScreen(supervisor: string, supervisors: seq<string>, statuses: map<string, SupervisorStatus>,
                     chars: map<string, CharacterCfg>, attempts: Attempts) returns (reply: Reply, captured: Option<string>)
    ensures supervisor == "" ==> reply == BadRequest(SupervisorRequired) && captured == None
    ensures supervisor != "" && supervisor !in supervisors ==> reply == NoReply && captured == None
    ensures supervisor != "" && supervisor in supervisors && !ShareReady(StatusOf(statuses, supervisor)) ==>
              reply == BadRequest(NotReady) && captured == None
    ensures supervisor != "" && supervisor in supervisors && ShareReady(StatusOf(statuses, supervisor)) && supervisor !in chars ==>
              reply == NilPanic && captured == None
    ensures supervisor != "" && supervisor in supervisors && ShareReady(StatusOf(statuses, supervisor)) && supervisor in chars ==>
              && captured == Some(chars[supervisor].characterName) && (reply.Jpeg? || reply.BadRequest?)
              && (reply.Jpeg? <==> FirstGood(attempts, 0, ShareRetries).Some?)
    ensures reply.BadRequest? && captured.Some? ==>
              reply.text == CaptureFailedHeader + Lines(AttemptErrors(attempts, ShareRetries))
    ensures reply.Jpeg? ==> |reply.bytes| >= MinImageBytes
    ensures reply.Jpeg? ==> var g := FirstGood(attempts, 0, ShareRetries);
              g.Some? && reply.bytes == At(attempts, g.value).bytes
  {
    if supervisor == "" {
      return BadRequest(SupervisorRequired), None;
    }
    for i := 0 to |supervisors|
      invariant supervisor !in supervisors[..i]
    {
      if supervisors[i] == supervisor {
        var status := StatusOf(statuses, supervisors[i]);
        if ShareReady(status) {
          if supervisors[i] !in chars {
            return NilPanic, None;
          }
          var chr := chars[supervisors[i]].characterName;
          var img, err := CaptureImageWithRetry(attempts, ShareRetries);
          if img.None? {
            return BadRequest(err.value), Some(chr);
          }
          return Jpeg(img.value), Some(chr);
        } else {
          return BadRequest(NotReady), None;
        }
      }
      assert supervisors[..i + 1] == supervisors[..i] + [supervisors[i]];
    }
    assert supervisors[..|supervisors|] == supervisors;
    return NoReply, None;
  }
}

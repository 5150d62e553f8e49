/** JavaScript values as the proxy handlers see them: parsed JSON, `undefined`,
    truthiness, `||`, `??`, member access and optional chaining, and the two
    string operations the ticket handlers use (`split` and `join`). */
module Js {

  datatype Option<+T> = None | Some(value: T)

  /** The outcome of evaluating JavaScript code: a value, or an exception
      carrying its message. Failure-compatible, so `:-` propagates a throw. */
  datatype Eval<+T> = Value(get: T) | Thrown(message: string) {
    predicate IsFailure() { Thrown? }

    function PropagateFailure<U>(): Eval<U>
      requires Thrown?
    {
      Thrown(message)
    }

    function Extract(): T
      requires Value?
    {
      get
    }
  }

  /** A JSON value. Numbers are integers in this model. */
  datatype Json =
    | JNull
    | JBool(b: bool)
    | JNum(n: int)
    | JStr(s: string)
    | JArr(items: seq<Json>)
    | JObj(fields: map<string, Json>)

  /** The message of the TypeError the engine raises when a member of `null`
      or `undefined` is read, or a non-function is called. */
  const TypeErrorMessage: string := "Cannot read properties of null or undefined"

  const EmptyObject: Json := JObj(map[])

  /** JavaScript truthiness; `None` stands for `undefined`. */
  predicate Truthy(v: Option<Json>) {
    match v
    case None => false
    case Some(JNull) => false
    case Some(JBool(b)) => b
    case Some(JNum(n)) => n != 0
    case Some(JStr(s)) => s != ""
    case Some(_) => true
  }

  /** `null` or `undefined`: the values `??` and `?.` treat as missing. */
  predicate Nullish(v: Option<Json>) {
    v == None || v == Some(JNull)
  }

  /** `v || fallback` */
  function OrElse(v: Option<Json>, fallback: Json): Json {
    if Truthy(v) then v.value else fallback
  }

  /** `v ?? fallback` */
  function Coalesce(v: Option<Json>, fallback: Json): Json {
    if Nullish(v) then fallback else v.value
  }

  /** A named property of a value that is neither `null` nor `undefined`:
      only an object has one; a primitive or an array reads as `undefined`. */
  function Field(v: Json, key: string): Option<Json> {
    match v
    case JObj(m) => if key in m then Some(m[key]) else None
    case _ => None
  }

  /** `v.key`, and also `const { key } = v`: both throw on `null` and `undefined`. */
  function Member(v: Option<Json>, key: string): (r: Eval<Option<Json>>)
    ensures r.Thrown? <==> Nullish(v)
    ensures Nullish(v) ==> r == Thrown(TypeErrorMessage)
    ensures !Nullish(v) ==> r == Value(Field(v.value, key))
  {
    if Nullish(v) then Thrown(TypeErrorMessage) else Value(Field(v.value, key))
  }

  /** `v?.key`: `undefined` when `v` is `null` or `undefined`. */
  function OptionalMember(v: Option<Json>, key: string): Option<Json> {
    if Nullish(v) then None else Field(v.value, key)
  }

  /** `v.length` of an array or a string. Other values are treated as having no length. */
  function LengthOf(v: Json): Option<int> {
    match v
    case JArr(items) => Some(|items|)
    case JStr(s) => Some(|s|)
    case _ => None
  }

  /** `v[0]` of an array or a string. */
  function First(v: Json): Option<Json> {
    match v
    case JArr(items) => if |items| > 0 then Some(items[0]) else None
    case JStr(s) => if |s| > 0 then Some(JStr(s[..1])) else None
    case _ => None
  }

  /** `v && v.length > 0` */
  predicate HasItems(v: Option<Json>) {
    Truthy(v) && LengthOf(v.value).Some? && LengthOf(v.value).value > 0
  }

  /** `!v || v.length === 0` */
  predicate Lacking(v: Option<Json>) {
    !Truthy(v) || LengthOf(v.value) == Some(0)
  }

  /** An object literal member `key: v` after JSON serialisation: an
      `undefined` value leaves the key out. */
  function Put(m: map<string, Json>, key: string, v: Option<Json>): map<string, Json> {
    if v.Some? then m[key := v.value] else m
  }

  /** `s.split(sep)` for a one-character separator. */
  function Split(s: string, sep: char): (parts: seq<string>)
    ensures |parts| >= 1
    decreases |s|
  {
    if |s| == 0 then [""]
    else
      var rest := Split(s[1..], sep);
      if s[0] == sep then [""] + rest
      else [[s[0]] + rest[0]] + rest[1..]
  }

  /** `parts.join(sep)` for a one-character separator. */
  function Join(parts: seq<string>, sep: char): string
    decreases |parts|
  {
    if |parts| == 0 then ""
    else if |parts| == 1 then parts[0]
    else parts[0] + [sep] + Join(parts[1..], sep)
  }

  /** Joining the pieces of a split gives back the string. */
  lemma {:induction false} JoinSplit(s: string, sep: char)
    ensures Join(Split(s, sep), sep) == s
    decreases |s|
  {
    if |s| > 0 {
      var rest := Split(s[1..], sep);
      JoinSplit(s[1..], sep);
      if s[0] == sep {
        assert Split(s, sep) == [""] + rest;
        assert ([""] + rest)[1..] == rest;
      } else {
        var parts := Split(s, sep);
        assert parts == [[s[0]] + rest[0]] + rest[1..];
        if |rest| > 1 {
          assert parts[1..] == rest[1..];
          assert Join(rest, sep) == rest[0] + [sep] + Join(rest[1..], sep);
        }
        assert s == [s[0]] + s[1..];
      }
    }
  }

  /** No piece of a split contains the separator. */
  lemma {:induction false} SplitPiecesLackSeparator(s: string, sep: char)
    ensures forall i :: 0 <= i < |Split(s, sep)| ==> sep !in Split(s, sep)[i]
    decreases |s|
  {
    if |s| > 0 {
      SplitPiecesLackSeparator(s[1..], sep);
      var rest := Split(s[1..], sep);
      var parts := Split(s, sep);
      if s[0] == sep {
        assert forall i :: 1 <= i < |parts| ==> parts[i] == rest[i - 1];
      } else {
        assert forall i :: 1 <= i < |parts| ==> parts[i] == rest[i];
        assert parts[0] == [s[0]] + rest[0];
      }
    }
  }

  /** A string splits into one piece exactly when it lacks the separator,
      and that piece is the string itself. */
  lemma {:induction false} SplitCount(s: string, sep: char)
    ensures sep !in s <==> |Split(s, sep)| == 1
    ensures sep !in s ==> Split(s, sep) == [s]
    decreases |s|
  {
    if |s| > 0 {
      SplitCount(s[1..], sep);
      assert s == [s[0]] + s[1..];
      assert sep in s <==> s[0] == sep || sep in s[1..];
    }
  }
}

/**
 * RFC 8785 canonical JSON (packages/mandate/src/jcs.ts): the serialiser with its error cases, and the
 * well-formedness loop over UTF-16 code units. JcsFaithful.dfy proves the text is a faithful form.
 */
module Jcs {
  import opened Prelude

  type CodeUnit = c: int | 0 <= c < 0x10000

  type Text = seq<CodeUnit>

  /** ECMAScript's own spelling of a finite number. Two numbers other than -0 and 0 never share one. */
  type NumberToken = t: Text | IsNumberToken(t) witness [0x30]

  /** A JavaScript value. An object is its own members in insertion order. */
  datatype Json =
    | Null
    | Bool(b: bool)
    | Number(token: NumberToken)
    | NonFinite
    | Str(text: Text)
    | Arr(items: seq<Json>)
    | Obj(members: seq<Member>)
    | Undefined
    | Unsupported
    | NotPlain

  datatype Member = Member(key: Text, value: Json)

  datatype CanonError =
    | TooDeep
    | LoneHigh
    | LoneLow
    | NonFiniteNumber
    | UnsupportedType
    | NotPlainObject
    | UndefinedMember

  const MAX_DEPTH: nat := 64

  const QUOTE: CodeUnit := 0x22
  const BACKSLASH: CodeUnit := 0x5c
  const COMMA: CodeUnit := 0x2c
  const COLON: CodeUnit := 0x3a
  const OPEN_ARRAY: CodeUnit := 0x5b
  const CLOSE_ARRAY: CodeUnit := 0x5d
  const OPEN_OBJECT: CodeUnit := 0x7b
  const CLOSE_OBJECT: CodeUnit := 0x7d
  const NULL: Text := [0x6e, 0x75, 0x6c, 0x6c]
  const TRUE: Text := [0x74, 0x72, 0x75, 0x65]
  const FALSE: Text := [0x66, 0x61, 0x6c, 0x73, 0x65]

  predicate IsDigit(c: CodeUnit) { 0x30 <= c <= 0x39 }

  /** Digits and the characters - + . e */
  predicate IsNumberChar(c: CodeUnit) { IsDigit(c) || c == 0x2d || c == 0x2b || c == 0x2e || c == 0x65 }

  predicate StartsNumber(c: CodeUnit) { IsDigit(c) || c == 0x2d }

  predicate IsNumberToken(t: Text) {
    |t| > 0 && StartsNumber(t[0]) && forall i :: 0 <= i < |t| ==> IsNumberChar(t[i])
  }

  // ---------------------------------------------------------------- well-formed strings

  predicate IsHigh(c: CodeUnit) { 0xd800 <= c <= 0xdbff }

  predicate IsLow(c: CodeUnit) { 0xdc00 <= c <= 0xdfff }

  /** Surrogates come in pairs: no high one without a low one after it, no low one without a high one before it. */
  predicate WellFormed(s: Text) {
    && (forall i :: 0 <= i < |s| && IsHigh(s[i]) ==> i + 1 < |s| && IsLow(s[i + 1]))
    && (forall i :: 0 <= i < |s| && IsLow(s[i]) ==> i > 0 && IsHigh(s[i - 1]))
  }

  /** The first lone surrogate met from `i` on. */
  function LoneFrom(s: Text, i: nat): Option<CanonError>
    requires i <= |s|
    decreases |s| - i
  {
    if i == |s| then None
    else if IsHigh(s[i]) then
      if i + 1 < |s| && IsLow(s[i + 1]) then LoneFrom(s, i + 2) else Some(LoneHigh)
    else if IsLow(s[i]) then Some(LoneLow)
    else LoneFrom(s, i + 1)
  }

  method AssertWellFormedString(s: Text) returns (lone: Option<CanonError>)
    ensures lone == LoneFrom(s, 0)
    ensures lone.None? <==> WellFormed(s)
  {
    LoneFromFindsAll(s, 0);
    var i := 0;
    while i < |s|
      invariant 0 <= i <= |s|
      invariant LoneFrom(s, 0) == LoneFrom(s, i)
    {
      var code := s[i];
      if 0xd800 <= code <= 0xdbff {
        if !(i + 1 < |s| && 0xdc00 <= s[i + 1] <= 0xdfff) {
          return Some(LoneHigh);
        }
        i := i + 1;
      } else if 0xdc00 <= code <= 0xdfff {
        return Some(LoneLow);
      }
      i := i + 1;
    }
    return None;
  }

  lemma {:induction false} LoneFromFindsAll(s: Text, i: nat)
    requires i <= |s|
    requires i > 0 ==> !IsHigh(s[i - 1])
    ensures LoneFrom(s, i).None? <==>
            && (forall j :: i <= j < |s| && IsHigh(s[j]) ==> j + 1 < |s| && IsLow(s[j + 1]))
            && (forall j :: i <= j < |s| && IsLow(s[j]) ==> j > 0 && IsHigh(s[j - 1]))
    decreases |s| - i
  {
    if i < |s| {
      if IsHigh(s[i]) {
        if i + 1 < |s| && IsLow(s[i + 1]) { LoneFromFindsAll(s, i + 2); }
      } else if !IsLow(s[i]) {
        LoneFromFindsAll(s, i + 1);
      }
    }
  }

  // ---------------------------------------------------------------- printing

  function HexDigit(n: int): CodeUnit
    requires 0 <= n < 16
  {
    if n < 10 then 0x30 + n else 0x61 + (n - 10)
  }

  function Escape(c: CodeUnit): Text {
    if c == QUOTE then [BACKSLASH, QUOTE]
    else if c == BACKSLASH then [BACKSLASH, BACKSLASH]
    else if c == 0x08 then [BACKSLASH, 0x62]
    else if c == 0x09 then [BACKSLASH, 0x74]
    else if c == 0x0a then [BACKSLASH, 0x6e]
    else if c == 0x0c then [BACKSLASH, 0x66]
    else if c == 0x0d then [BACKSLASH, 0x72]
    else if c < 0x20 then [BACKSLASH, 0x75, 0x30, 0x30, HexDigit(c / 16), HexDigit(c % 16)]
    else [c]
  }

  function EscapeAll(s: Text): Text {
    if s == [] then [] else Escape(s[0]) + EscapeAll(s[1..])
  }

  function Quote(s: Text): Text { [QUOTE] + EscapeAll(s) + [QUOTE] }

  /** UTF-16 code unit order, the order of Array.prototype.sort. */
  predicate Less(a: Text, b: Text) {
    if b == [] then false
    else if a == [] then true
    else a[0] < b[0] || (a[0] == b[0] && Less(a[1..], b[1..]))
  }

  function Insert(m: Member, ms: seq<Member>): (r: seq<Member>)
    ensures multiset(r) == multiset(ms) + multiset{m}
  {
    if ms == [] then [m]
    else if Less(ms[0].key, m.key) then
      assert ms == [ms[0]] + ms[1..];
      [ms[0]] + Insert(m, ms[1..])
    else [m] + ms
  }

  function SortMembers(ms: seq<Member>): (r: seq<Member>)
    ensures multiset(r) == multiset(ms)
    ensures |r| == |ms| && forall m :: m in r <==> m in ms
  {
    if ms == [] then []
    else
      assert ms == [ms[0]] + ms[1..];
      var r := Insert(ms[0], SortMembers(ms[1..]));
      assert |r| == |multiset(r)| && forall m :: m in r <==> m in multiset(r);
      r
  }

  /** Every member value is a proper part of the object that owns it. */
  ghost predicate Within(ms: seq<Member>, owner: Json) {
    forall m :: m in ms ==> m.value < owner
  }

  lemma MembersWithin(v: Json)
    requires v.Obj?
    ensures Within(SortMembers(v.members), v)
  {
    forall m | m in SortMembers(v.members)
      ensures m.value < v
    {
      assert m in v.members;
      var i :| 0 <= i < |v.members| && v.members[i] == m;
      assert v.members[i].value < v;
    }
  }

  function Serialise(v: Json, depth: nat): Result<Text, CanonError>
    decreases v, 1, 0
  {
    if depth > MAX_DEPTH then Err(TooDeep)
    else match v
      case Null => Ok(NULL)
      case Bool(b) => Ok(if b then TRUE else FALSE)
      case Str(s) => (match LoneFrom(s, 0) case Some(e) => Err(e) case None => Ok(Quote(s)))
      case Number(token) => Ok(token)
      case NonFinite => Err(NonFiniteNumber)
      case Undefined => Err(UnsupportedType)
      case Unsupported => Err(UnsupportedType)
      case NotPlain => Err(NotPlainObject)
      case Arr(items) =>
        (match SerialiseItems(items, depth + 1)
         case Err(e) => Err(e)
         case Ok(body) => Ok([OPEN_ARRAY] + body + [CLOSE_ARRAY]))
      case Obj(members) =>
        MembersWithin(v);
        (match SerialiseMembers(SortMembers(members), depth + 1, v)
         case Err(e) => Err(e)
         case Ok(body) => Ok([OPEN_OBJECT] + body + [CLOSE_OBJECT]))
  }

  function SerialiseItems(items: seq<Json>, depth: nat): Result<Text, CanonError>
    decreases items, 0, |items|
  {
    if items == [] then Ok([])
    else match Serialise(items[0], depth)
      case Err(e) => Err(e)
      case Ok(first) =>
        if |items| == 1 then Ok(first)
        else match SerialiseItems(items[1..], depth)
          case Err(e) => Err(e)
          case Ok(rest) => Ok(first + [COMMA] + rest)
  }

  function SerialiseMember(m: Member, depth: nat, ghost owner: Json): Result<Text, CanonError>
    requires m.value < owner
    decreases owner, 0, 0
  {
    match LoneFrom(m.key, 0)
    case Some(e) => Err(e)
    case None =>
      if m.value.Undefined? then Err(UndefinedMember)
      else match Serialise(m.value, depth)
        case Err(e) => Err(e)
        case Ok(text) => Ok(Quote(m.key) + [COLON] + text)
  }

  function SerialiseMembers(ms: seq<Member>, depth: nat, ghost owner: Json): Result<Text, CanonError>
    requires Within(ms, owner)
    decreases owner, 0, |ms| + 1
  {
    if ms == [] then Ok([])
    else match SerialiseMember(ms[0], depth, owner)
      case Err(e) => Err(e)
      case Ok(first) =>
        if |ms| == 1 then Ok(first)
        else match SerialiseMembers(ms[1..], depth, owner)
          case Err(e) => Err(e)
          case Ok(rest) => Ok(first + [COMMA] + rest)
  }

  function Canonicalize(v: Json): Result<Text, CanonError> { Serialise(v, 0) }
}

/**
 * Canonical text is a faithful form of a JSON value: two values with distinct keys print alike exactly
 * when they are equal up to the order of object members (RFC 8785, sections 3.2.2.2 and 3.2.3).
 */
module JcsFaithful {
  import opened Prelude
  import opened Jcs

  /** What JavaScript guarantees of an object: no key twice. */
  predicate DistinctKeys(v: Json) {
    match v
    case Arr(items) => forall i :: 0 <= i < |items| ==> DistinctKeys(items[i])
    case Obj(ms) =>
      && (forall i, j :: 0 <= i < j < |ms| ==> ms[i].key != ms[j].key)
      && (forall i :: 0 <= i < |ms| ==> DistinctKeys(ms[i].value))
    case _ => true
  }

  ghost function Keys(ms: seq<Member>): set<Text> { set m | m in ms :: m.key }

  lemma IndexOfKey(ms: seq<Member>, key: Text) returns (i: nat)
    requires key in Keys(ms)
    ensures i < |ms| && ms[i].key == key
  {
    var m :| m in ms && m.key == key;
    i :| i < |ms| && ms[i] == m;
  }

  /** Equal up to the order of object members, at every depth. */
  ghost predicate Same(v: Json, w: Json) {
    match (v, w)
    case (Arr(xs), Arr(ys)) => |xs| == |ys| && forall i :: 0 <= i < |xs| ==> Same(xs[i], ys[i])
    case (Obj(ms), Obj(ns)) =>
      && Keys(ms) == Keys(ns)
      && (forall i, j :: 0 <= i < |ms| && 0 <= j < |ns| && ms[i].key == ns[j].key ==> Same(ms[i].value, ns[j].value))
    case _ => v == w
  }

  // ---------------------------------------------------------------- sorting

  ghost predicate Sorted(ms: seq<Member>) {
    forall i, j :: 0 <= i < j < |ms| ==> Less(ms[i].key, ms[j].key)
  }

  lemma {:induction false} LessTransitive(a: Text, b: Text, c: Text)
    requires Less(a, b) && Less(b, c)
    ensures Less(a, c)
  {
    if a != [] && a[0] == b[0] && b[0] == c[0] { LessTransitive(a[1..], b[1..], c[1..]); }
  }

  lemma {:induction false} LessTotal(a: Text, b: Text)
    ensures Less(a, b) || Less(b, a) || a == b
    ensures !(Less(a, b) && Less(b, a)) && !Less(a, a)
  {
    if a != [] && b != [] {
      LessTotal(a[1..], b[1..]);
      if a[0] == b[0] && a[1..] == b[1..] {
        assert a == [a[0]] + a[1..] == [b[0]] + b[1..] == b;
      }
      LessTotal(a[1..], a[1..]);
    } else if a != [] {
      LessTotal(a[1..], a[1..]);
    }
  }

  lemma {:induction false} InsertSorts(m: Member, ms: seq<Member>)
    requires Sorted(ms) && forall n :: n in ms ==> n.key != m.key
    ensures Sorted(Insert(m, ms))
    ensures forall n :: n in Insert(m, ms) <==> n == m || n in ms
  {
    if ms == [] {
    } else if Less(ms[0].key, m.key) {
      InsertSorts(m, ms[1..]);
      var r := Insert(m, ms[1..]);
      assert Insert(m, ms) == [ms[0]] + r;
      forall j | 0 <= j < |r|
        ensures Less(ms[0].key, r[j].key)
      {
        assert r[j] in r;
        if r[j] != m {
          var k :| 0 <= k < |ms[1..]| && ms[1..][k] == r[j];
          assert ms[k + 1] == r[j];
        }
      }
    } else {
      LessTotal(ms[0].key, m.key);
      forall j | 0 <= j < |ms|
        ensures Less(m.key, ms[j].key)
      {
        if j > 0 { LessTransitive(m.key, ms[0].key, ms[j].key); }
      }
    }
  }

  lemma {:induction false} SortSorts(ms: seq<Member>)
    requires forall i, j :: 0 <= i < j < |ms| ==> ms[i].key != ms[j].key
    ensures Sorted(SortMembers(ms))
  {
    if ms != [] {
      var tail := ms[1..];
      SortSorts(tail);
      forall n | n in SortMembers(tail)
        ensures n.key != ms[0].key
      {
        assert n in tail;
        var k :| 0 <= k < |tail| && tail[k] == n;
        assert ms[k + 1] == n;
      }
      InsertSorts(ms[0], SortMembers(tail));
    }
  }

  lemma NoKeys(ms: seq<Member>)
    ensures Keys(ms) == {} <==> ms == []
  {
    if ms != [] { assert ms[0].key in Keys(ms); }
  }

  lemma SortKeepsKeys(ms: seq<Member>)
    ensures Keys(SortMembers(ms)) == Keys(ms)
  {
  }

  /** The first key of a sorted list is its least, and dropping the member drops just that key. */
  lemma SortedTail(ms: seq<Member>)
    requires Sorted(ms) && ms != []
    ensures Sorted(ms[1..]) && Keys(ms[1..]) == Keys(ms) - {ms[0].key}
    ensures forall k :: k in Keys(ms) ==> k == ms[0].key || Less(ms[0].key, k)
  {
    LessTotal(ms[0].key, ms[0].key);
    assert ms == [ms[0]] + ms[1..];
    forall k | k in Keys(ms[1..])
      ensures Less(ms[0].key, k)
    {
      var i := IndexOfKey(ms[1..], k);
      assert ms[i + 1].key == k;
    }
    assert Keys(ms) == {ms[0].key} + Keys(ms[1..]);
  }

  /** Two sorted lists with the same keys list them in the same order. */
  lemma {:induction false} SortedKeysUnique(ms: seq<Member>, ns: seq<Member>)
    requires Sorted(ms) && Sorted(ns) && Keys(ms) == Keys(ns)
    ensures |ms| == |ns| && forall i :: 0 <= i < |ms| ==> ms[i].key == ns[i].key
  {
    if ms == [] {
      NoKeys(ns);
    } else {
      assert ms[0].key in Keys(ms);
      assert ns != [];
      assert ns[0].key in Keys(ns);
      SortedTail(ms);
      SortedTail(ns);
      LessTotal(ms[0].key, ns[0].key);
      SortedKeysUnique(ms[1..], ns[1..]);
      forall i | 0 <= i < |ms|
        ensures ms[i].key == ns[i].key
      {
        if i > 0 { assert ms[1..][i - 1].key == ns[1..][i - 1].key; }
      }
    }
  }

  // ---------------------------------------------------------------- same values print alike

  /** The same key, and the same value up to order, in both of them no key twice. */
  ghost predicate SamePair(m: Member, n: Member) {
    m.key == n.key && Same(m.value, n.value) && DistinctKeys(m.value) && DistinctKeys(n.value)
  }

  ghost predicate SamePairs(ms: seq<Member>, ns: seq<Member>) {
    |ms| == |ns| && forall i :: 0 <= i < |ms| ==> SamePair(ms[i], ns[i])
  }

  lemma TailPairs(ms: seq<Member>, ns: seq<Member>)
    requires SamePairs(ms, ns) && ms != []
    ensures SamePair(ms[0], ns[0]) && SamePairs(ms[1..], ns[1..])
  {
    forall i | 0 <= i < |ms| - 1
      ensures SamePair(ms[1..][i], ns[1..][i])
    {
      assert SamePair(ms[i + 1], ns[i + 1]);
    }
  }

  lemma SortedPairs(v: Json, w: Json)
    requires v.Obj? && w.Obj? && DistinctKeys(v) && DistinctKeys(w) && Same(v, w)
    ensures SamePairs(SortMembers(v.members), SortMembers(w.members))
  {
    var ms, ns := v.members, w.members;
    var p, q := SortMembers(ms), SortMembers(ns);
    SortSorts(ms);
    SortSorts(ns);
    SortKeepsKeys(ms);
    SortKeepsKeys(ns);
    SortedKeysUnique(p, q);
    SortedDistinct(v);
    SortedDistinct(w);
    forall k | 0 <= k < |p|
      ensures SamePair(p[k], q[k])
    {
      PairAt(v, w, k);
    }
  }

  lemma PairAt(v: Json, w: Json, k: nat)
    requires v.Obj? && w.Obj? && Same(v, w) && k < |SortMembers(v.members)| && k < |SortMembers(w.members)|
    requires SortMembers(v.members)[k].key == SortMembers(w.members)[k].key
    requires DistinctKeys(SortMembers(v.members)[k].value) && DistinctKeys(SortMembers(w.members)[k].value)
    ensures SamePair(SortMembers(v.members)[k], SortMembers(w.members)[k])
  {
    var ms, ns := v.members, w.members;
    var m, n := SortMembers(ms)[k], SortMembers(ns)[k];
    assert m in SortMembers(ms) && n in SortMembers(ns);
    var i :| 0 <= i < |ms| && ms[i] == m;
    var j :| 0 <= j < |ns| && ns[j] == n;
    assert ms[i].key == ns[j].key;
  }

  /** Reordering members changes nothing: neither the text nor which error is reported. */
  lemma {:induction false} SamePrintsAlike(v: Json, w: Json, depth: nat)
    requires DistinctKeys(v) && DistinctKeys(w) && Same(v, w)
    ensures Serialise(v, depth) == Serialise(w, depth)
    decreases v, 1, 0
  {
    if depth <= MAX_DEPTH && v.Arr? {
      SameItemsPrintAlike(v.items, w.items, depth + 1);
    } else if depth <= MAX_DEPTH && v.Obj? {
      SameObjectsPrintAlike(v, w, depth);
    }
  }

  lemma {:induction false} SameObjectsPrintAlike(v: Json, w: Json, depth: nat)
    requires v.Obj? && w.Obj? && depth <= MAX_DEPTH && DistinctKeys(v) && DistinctKeys(w) && Same(v, w)
    ensures Serialise(v, depth) == Serialise(w, depth)
    decreases v, 0, |v.members| + 2
  {
    MembersWithin(v);
    MembersWithin(w);
    SortedPairs(v, w);
    SameMembersPrintAlike(SortMembers(v.members), SortMembers(w.members), depth + 1, v, w);
  }

  lemma SortedDistinct(v: Json)
    requires v.Obj? && DistinctKeys(v)
    ensures forall m :: m in SortMembers(v.members) ==> DistinctKeys(m.value)
  {
    forall m | m in SortMembers(v.members)
      ensures DistinctKeys(m.value)
    {
      assert m in v.members;
      var i :| 0 <= i < |v.members| && v.members[i] == m;
    }
  }

  lemma {:induction false} SameItemsPrintAlike(xs: seq<Json>, ys: seq<Json>, depth: nat)
    requires |xs| == |ys| && forall i :: 0 <= i < |xs| ==> DistinctKeys(xs[i]) && DistinctKeys(ys[i]) && Same(xs[i], ys[i])
    ensures SerialiseItems(xs, depth) == SerialiseItems(ys, depth)
    decreases xs, 0, |xs|
  {
    if xs != [] {
      SamePrintsAlike(xs[0], ys[0], depth);
      SameItemsPrintAlike(xs[1..], ys[1..], depth);
    }
  }

  lemma {:induction false} SameMemberPrintsAlike(m: Member, n: Member, depth: nat, v: Json, w: Json)
    requires m.value < v && n.value < w && SamePair(m, n)
    ensures SerialiseMember(m, depth, v) == SerialiseMember(n, depth, w)
    decreases v, 0, 0
  {
    SamePrintsAlike(m.value, n.value, depth);
    assert m.value.Undefined? <==> n.value.Undefined?;
  }

  lemma {:induction false} SameMembersPrintAlike(ms: seq<Member>, ns: seq<Member>, depth: nat, v: Json, w: Json)
    requires Within(ms, v) && Within(ns, w) && SamePairs(ms, ns)
    ensures SerialiseMembers(ms, depth, v) == SerialiseMembers(ns, depth, w)
    decreases v, 0, |ms| + 1
  {
    if ms != [] {
      assert ms[0] in ms && ns[0] in ns;
      TailPairs(ms, ns);
      SameMemberPrintsAlike(ms[0], ns[0], depth, v, w);
      SameMembersPrintAlike(ms[1..], ns[1..], depth, v, w);
    }
  }

  // ---------------------------------------------------------------- the parser that inverts the printer

  function HexValue(c: CodeUnit): Option<int> {
    if IsDigit(c) then Some(c - 0x30)
    else if 0x61 <= c <= 0x66 then Some(c - 0x61 + 10)
    else None
  }

  /** One character of a string body, escaped or not. */
  function ParseChar(t: Text): (r: Option<(CodeUnit, Text)>)
    ensures r.Some? ==> |r.value.1| < |t|
  {
    if t == [] || t[0] == QUOTE then None
    else if t[0] != BACKSLASH then Some((t[0], t[1..]))
    else if |t| < 2 then None
    else if t[1] == QUOTE || t[1] == BACKSLASH then Some((t[1], t[2..]))
    else if t[1] == 0x62 then Some((0x08, t[2..]))
    else if t[1] == 0x74 then Some((0x09, t[2..]))
    else if t[1] == 0x6e then Some((0x0a, t[2..]))
    else if t[1] == 0x66 then Some((0x0c, t[2..]))
    else if t[1] == 0x72 then Some((0x0d, t[2..]))
    else if |t| >= 6 && t[1] == 0x75 && HexValue(t[4]).Some? && HexValue(t[5]).Some? then
      Some((HexValue(t[4]).value * 16 + HexValue(t[5]).value, t[6..]))
    else None
  }

  function ParseChars(t: Text): (r: Option<(Text, Text)>)
    ensures r.Some? ==> |r.value.1| < |t|
    decreases |t|
  {
    if t != [] && t[0] == QUOTE then Some(([], t[1..]))
    else match ParseChar(t)
      case None => None
      case Some((c, rest)) =>
        match ParseChars(rest)
        case None => None
        case Some((s, rest')) => Some(([c] + s, rest'))
  }

  function NumberLength(t: Text): (n: nat)
    ensures n <= |t| && forall i :: 0 <= i < n ==> IsNumberChar(t[i])
  {
    if t != [] && IsNumberChar(t[0]) then 1 + NumberLength(t[1..]) else 0
  }

  predicate Begins(t: Text, word: Text) { |word| <= |t| && t[..|word|] == word }

  function ParseValue(t: Text): (r: Option<(Json, Text)>)
    ensures r.Some? ==> |r.value.1| < |t|
    decreases |t|, 1
  {
    if t == [] then None
    else if Begins(t, NULL) then Some((Null, t[4..]))
    else if Begins(t, TRUE) then Some((Bool(true), t[4..]))
    else if Begins(t, FALSE) then Some((Bool(false), t[5..]))
    else if StartsNumber(t[0]) then
      var n := NumberLength(t);
      var token: Text := t[..n];
      Some((Number(token), t[n..]))
    else if t[0] == QUOTE then
      match ParseChars(t[1..])
      case None => None
      case Some((s, rest)) => Some((Str(s), rest))
    else if t[0] == OPEN_ARRAY then
      if |t| > 1 && t[1] == CLOSE_ARRAY then Some((Arr([]), t[2..]))
      else match ParseItems(t[1..])
        case None => None
        case Some((items, rest)) => Some((Arr(items), rest))
    else if t[0] == OPEN_OBJECT then
      if |t| > 1 && t[1] == CLOSE_OBJECT then Some((Obj([]), t[2..]))
      else match ParseMembers(t[1..])
        case None => None
        case Some((ms, rest)) => Some((Obj(ms), rest))
    else None
  }

  function ParseItems(t: Text): (r: Option<(seq<Json>, Text)>)
    ensures r.Some? ==> |r.value.1| < |t|
    decreases |t|, 2
  {
    match ParseValue(t)
    case None => None
    case Some((v, rest)) =>
      if rest == [] then None
      else if rest[0] == CLOSE_ARRAY then Some(([v], rest[1..]))
      else if rest[0] != COMMA then None
      else match ParseItems(rest[1..])
        case None => None
        case Some((items, rest')) => Some(([v] + items, rest'))
  }

  function ParseMember(t: Text): (r: Option<(Member, Text)>)
    ensures r.Some? ==> |r.value.1| < |t|
    decreases |t|, 0
  {
    if t == [] || t[0] != QUOTE then None
    else match ParseChars(t[1..])
      case None => None
      case Some((key, rest)) =>
        if rest == [] || rest[0] != COLON then None
        else match ParseValue(rest[1..])
          case None => None
          case Some((v, rest')) => Some((Member(key, v), rest'))
  }

  function ParseMembers(t: Text): (r: Option<(seq<Member>, Text)>)
    ensures r.Some? ==> |r.value.1| < |t|
    decreases |t|, 1
  {
    match ParseMember(t)
    case None => None
    case Some((m, rest)) =>
      if rest == [] then None
      else if rest[0] == CLOSE_OBJECT then Some(([m], rest[1..]))
      else if rest[0] != COMMA then None
      else match ParseMembers(rest[1..])
        case None => None
        case Some((ms, rest')) => Some(([m] + ms, rest'))
  }

  // ---------------------------------------------------------------- parse after print

  /** The value with the members of every object in printing order. */
  function Normal(v: Json): Json
    decreases v, 1, 0
  {
    match v
    case Arr(items) => Arr(NormalItems(items))
    case Obj(members) =>
      MembersWithin(v);
      Obj(NormalMembers(SortMembers(members), v))
    case _ => v
  }

  function NormalItems(items: seq<Json>): (r: seq<Json>)
    ensures |r| == |items| && forall i :: 0 <= i < |r| ==> r[i] == Normal(items[i])
    decreases items, 0, |items|
  {
    if items == [] then [] else [Normal(items[0])] + NormalItems(items[1..])
  }

  function NormalMembers(ms: seq<Member>, ghost owner: Json): (r: seq<Member>)
    requires Within(ms, owner)
    ensures |r| == |ms| && forall i :: 0 <= i < |r| ==> ms[i] in ms && r[i] == Member(ms[i].key, Normal(ms[i].value))
    decreases owner, 0, |ms|
  {
    if ms == [] then [] else [Member(ms[0].key, Normal(ms[0].value))] + NormalMembers(ms[1..], owner)
  }

  /** What may follow a value: nothing, or a character that cannot continue a number. */
  predicate Follows(rest: Text) { rest == [] || !IsNumberChar(rest[0]) }

  lemma ParseEscaped(c: CodeUnit, rest: Text)
    ensures ParseChar(Escape(c) + rest) == Some((c, rest)) && Escape(c)[0] != QUOTE
  {
    var t := Escape(c) + rest;
    if c < 0x20 && |Escape(c)| == 6 {
      assert t[4] == HexDigit(c / 16) && t[5] == HexDigit(c % 16) && t[6..] == rest;
    } else if |Escape(c)| == 2 {
      assert t[2..] == rest;
    } else {
      assert t[1..] == rest;
    }
  }

  lemma ParseCharsStep(t: Text, c: CodeUnit, tail: Text, s: Text, rest: Text)
    requires t != [] && t[0] != QUOTE && ParseChar(t) == Some((c, tail)) && ParseChars(tail) == Some((s, rest))
    ensures ParseChars(t) == Some(([c] + s, rest))
  {
  }

  lemma {:induction false} ParseQuoted(s: Text, rest: Text)
    ensures ParseChars(EscapeAll(s) + [QUOTE] + rest) == Some((s, rest))
  {
    if s == [] {
      assert (EscapeAll(s) + [QUOTE] + rest)[1..] == rest;
    } else {
      var tail := EscapeAll(s[1..]) + [QUOTE] + rest;
      assert EscapeAll(s) + [QUOTE] + rest == Escape(s[0]) + tail;
      ParseEscaped(s[0], tail);
      ParseQuoted(s[1..], rest);
      ParseCharsStep(Escape(s[0]) + tail, s[0], tail, s[1..], rest);
      assert [s[0]] + s[1..] == s;
    }
  }

  lemma {:induction false} NumberLengthOf(token: Text, rest: Text)
    requires (forall i :: 0 <= i < |token| ==> IsNumberChar(token[i])) && Follows(rest)
    ensures NumberLength(token + rest) == |token|
  {
    if token == [] {
      assert token + rest == rest;
    } else {
      assert (token + rest)[1..] == token[1..] + rest;
      NumberLengthOf(token[1..], rest);
    }
  }

  lemma NotAWord(t: Text)
    requires t != [] && t[0] != 0x6e && t[0] != 0x74 && t[0] != 0x66
    ensures !Begins(t, NULL) && !Begins(t, TRUE) && !Begins(t, FALSE)
  {
  }

  lemma ParseNumber(token: NumberToken, rest: Text)
    requires Follows(rest)
    ensures ParseValue(token + rest) == Some((Number(token), rest))
  {
    var t := token + rest;
    assert t[0] == token[0];
    NotAWord(t);
    NumberLengthOf(token, rest);
    assert t[..|token|] == token && t[|token|..] == rest;
  }

  lemma ParseWord(v: Json, word: Text, rest: Text)
    requires (v == Null && word == NULL) || (v == Bool(true) && word == TRUE) || (v == Bool(false) && word == FALSE)
    ensures ParseValue(word + rest) == Some((v, rest))
  {
    var t := word + rest;
    assert t[..|word|] == word && t[|word|..] == rest;
    assert t[0] == word[0];
    if Begins(t, NULL) { assert t[..4][0] == 0x6e; }
    if Begins(t, TRUE) { assert t[..4][0] == 0x74; }
  }

  lemma ParseString(s: Text, rest: Text)
    ensures ParseValue(Quote(s) + rest) == Some((Str(s), rest))
  {
    var t := Quote(s) + rest;
    NotAWord(t);
    assert t[1..] == EscapeAll(s) + [QUOTE] + rest;
    ParseQuoted(s, rest);
  }

  lemma ParseArrayText(t: Text, items: seq<Json>, rest: Text)
    requires |t| > 1 && t[0] == OPEN_ARRAY
    requires if t[1] == CLOSE_ARRAY then items == [] && rest == t[2..] else ParseItems(t[1..]) == Some((items, rest))
    ensures ParseValue(t) == Some((Arr(items), rest))
  {
    NotAWord(t);
  }

  lemma ParseMemberText(key: Text, text: Text, v: Json, rest: Text)
    requires ParseValue(text + rest) == Some((v, rest))
    ensures ParseMember(Quote(key) + [COLON] + text + rest) == Some((Member(key, v), rest))
  {
    var after := [COLON] + (text + rest);
    assert Quote(key) + [COLON] + text + rest == Quote(key) + after;
    ParseKeyText(key, after);
    assert after[1..] == text + rest;
  }

  lemma ParseKeyText(key: Text, after: Text)
    ensures (Quote(key) + after)[0] == QUOTE && ParseChars((Quote(key) + after)[1..]) == Some((key, after))
  {
    assert (Quote(key) + after)[1..] == EscapeAll(key) + [QUOTE] + after;
    ParseQuoted(key, after);
  }

  /** No value prints a closing bracket or brace first, so empty and non-empty containers never mix up. */
  lemma FirstChar(v: Json, depth: nat)
    requires Serialise(v, depth).Ok?
    ensures Serialise(v, depth).value != []
    ensures Serialise(v, depth).value[0] != CLOSE_ARRAY && Serialise(v, depth).value[0] != CLOSE_OBJECT
  {
  }

  lemma ParseScalar(v: Json, depth: nat, rest: Text)
    requires !v.Arr? && !v.Obj? && Serialise(v, depth).Ok? && Follows(rest)
    ensures ParseValue(Serialise(v, depth).value + rest) == Some((v, rest))
  {
    match v
    case Null => ParseWord(v, NULL, rest);
    case Bool(b) => ParseWord(v, if b then TRUE else FALSE, rest);
    case Number(token) => ParseNumber(token, rest);
    case Str(s) => ParseString(s, rest);
    case _ =>
  }

  lemma {:induction false} ParsePrinted(v: Json, depth: nat, rest: Text)
    requires Serialise(v, depth).Ok? && Follows(rest)
    ensures ParseValue(Serialise(v, depth).value + rest) == Some((Normal(v), rest))
    decreases v, 3, 0
  {
    if v.Arr? {
      ParsePrintedArray(v, depth, rest);
    } else if v.Obj? {
      ParsePrintedObject(v, depth, rest);
    } else {
      ParseScalar(v, depth, rest);
    }
  }

  lemma {:induction false} ParsePrintedArray(v: Json, depth: nat, rest: Text)
    requires v.Arr? && Serialise(v, depth).Ok?
    ensures ParseValue(Serialise(v, depth).value + rest) == Some((Normal(v), rest))
    decreases v, 2, 0
  {
    var t := Serialise(v, depth).value + rest;
    var body := SerialiseItems(v.items, depth + 1).value;
    assert t[1..] == body + [CLOSE_ARRAY] + rest;
    if v.items == [] {
      assert t[2..] == rest;
    } else {
      FirstOfItems(v.items, depth + 1);
      ParsePrintedItems(v.items, depth + 1, rest);
      assert t[1] == body[0];
    }
    ParseArrayText(t, NormalItems(v.items), rest);
  }

  lemma FirstOfItems(items: seq<Json>, depth: nat)
    requires items != [] && SerialiseItems(items, depth).Ok?
    ensures SerialiseItems(items, depth).value != [] && SerialiseItems(items, depth).value[0] != CLOSE_ARRAY
  {
    FirstChar(items[0], depth);
  }

  lemma {:induction false} ParsePrintedObject(v: Json, depth: nat, rest: Text)
    requires v.Obj? && Serialise(v, depth).Ok?
    ensures ParseValue(Serialise(v, depth).value + rest) == Some((Normal(v), rest))
    decreases v, 2, 0
  {
    var t := Serialise(v, depth).value + rest;
    MembersWithin(v);
    var ms := SortMembers(v.members);
    var body := SerialiseMembers(ms, depth + 1, v).value;
    assert t[1..] == body + [CLOSE_OBJECT] + rest;
    if ms == [] {
      assert t[2..] == rest;
    } else {
      ParsePrintedMembers(ms, depth + 1, v, rest);
      assert t[1] == body[0] == QUOTE;
    }
    ParseObjectText(t, NormalMembers(ms, v), rest);
  }

  lemma ParseObjectText(t: Text, ms: seq<Member>, rest: Text)
    requires |t| > 1 && t[0] == OPEN_OBJECT
    requires if t[1] == CLOSE_OBJECT then ms == [] && rest == t[2..] else ParseMembers(t[1..]) == Some((ms, rest))
    ensures ParseValue(t) == Some((Obj(ms), rest))
  {
    NotAWord(t);
  }

  /** One item and what follows it: the closing bracket, or a comma and the other items. */
  lemma ParseItemsText(t: Text, v: Json, after: Text, more: seq<Json>, rest: Text)
    requires ParseValue(t) == Some((v, after)) && after != []
    requires if more == [] then after == [CLOSE_ARRAY] + rest else after[0] == COMMA && ParseItems(after[1..]) == Some((more, rest))
    ensures ParseItems(t) == Some(([v] + more, rest))
  {
    if more == [] { assert after[1..] == rest && [v] + more == [v]; }
  }

  lemma Regroup(first: Text, comma: Text, more: Text, close: Text, rest: Text)
    ensures first + comma + more + close + rest == first + (comma + (more + close + rest))
  {
  }

  lemma ItemsText(items: seq<Json>, depth: nat, rest: Text)
    requires items != [] && SerialiseItems(items, depth).Ok?
    ensures var tail := if |items| == 1 then rest else SerialiseItems(items[1..], depth).value + [CLOSE_ARRAY] + rest;
            SerialiseItems(items, depth).value + [CLOSE_ARRAY] + rest ==
            Serialise(items[0], depth).value + ([if |items| == 1 then CLOSE_ARRAY else COMMA] + tail)
  {
    var first := Serialise(items[0], depth).value;
    if |items| == 1 {
      Regroup(first, [], [], [CLOSE_ARRAY], rest);
      assert first + [] + [] + [CLOSE_ARRAY] + rest == first + [CLOSE_ARRAY] + rest;
    } else {
      Regroup(first, [COMMA], SerialiseItems(items[1..], depth).value, [CLOSE_ARRAY], rest);
    }
  }

  lemma {:induction false} ParsePrintedItems(items: seq<Json>, depth: nat, rest: Text)
    requires items != [] && SerialiseItems(items, depth).Ok?
    ensures ParseItems(SerialiseItems(items, depth).value + [CLOSE_ARRAY] + rest) == Some((NormalItems(items), rest))
    decreases items, 1, |items|
  {
    var first := Serialise(items[0], depth).value;
    var tail := if |items| == 1 then rest else SerialiseItems(items[1..], depth).value + [CLOSE_ARRAY] + rest;
    var after := [if |items| == 1 then CLOSE_ARRAY else COMMA] + tail;
    ParsePrinted(items[0], depth, after);
    ItemsText(items, depth, rest);
    if |items| > 1 {
      assert after[1..] == tail;
      ParsePrintedItems(items[1..], depth, rest);
    }
    ParseItemsText(first + after, Normal(items[0]), after, NormalItems(items[1..]), rest);
  }

  lemma {:induction false} ParsePrintedMember(m: Member, depth: nat, owner: Json, rest: Text)
    requires m.value < owner && SerialiseMember(m, depth, owner).Ok? && Follows(rest)
    ensures ParseMember(SerialiseMember(m, depth, owner).value + rest) == Some((Member(m.key, Normal(m.value)), rest))
    ensures SerialiseMember(m, depth, owner).value[0] == QUOTE
    decreases owner, 0, 0
  {
    ParsePrinted(m.value, depth, rest);
    ParseMemberText(m.key, Serialise(m.value, depth).value, Normal(m.value), rest);
  }

  /** One member and what follows it: the closing brace, or a comma and the other members. */
  lemma ParseMembersText(t: Text, m: Member, after: Text, more: seq<Member>, rest: Text)
    requires ParseMember(t) == Some((m, after)) && after != []
    requires if more == [] then after == [CLOSE_OBJECT] + rest else after[0] == COMMA && ParseMembers(after[1..]) == Some((more, rest))
    ensures ParseMembers(t) == Some(([m] + more, rest))
  {
    if more == [] { assert after[1..] == rest && [m] + more == [m]; }
  }

  lemma MembersText(ms: seq<Member>, depth: nat, owner: Json, rest: Text)
    requires ms != [] && Within(ms, owner) && SerialiseMembers(ms, depth, owner).Ok?
    ensures var tail := if |ms| == 1 then rest else SerialiseMembers(ms[1..], depth, owner).value + [CLOSE_OBJECT] + rest;
            SerialiseMembers(ms, depth, owner).value + [CLOSE_OBJECT] + rest ==
            SerialiseMember(ms[0], depth, owner).value + ([if |ms| == 1 then CLOSE_OBJECT else COMMA] + tail)
  {
    var first := SerialiseMember(ms[0], depth, owner).value;
    if |ms| == 1 {
      Regroup(first, [], [], [CLOSE_OBJECT], rest);
      assert first + [] + [] + [CLOSE_OBJECT] + rest == first + [CLOSE_OBJECT] + rest;
    } else {
      Regroup(first, [COMMA], SerialiseMembers(ms[1..], depth, owner).value, [CLOSE_OBJECT], rest);
    }
  }

  lemma {:induction false} ParsePrintedMembers(ms: seq<Member>, depth: nat, owner: Json, rest: Text)
    requires ms != [] && Within(ms, owner) && SerialiseMembers(ms, depth, owner).Ok?
    ensures SerialiseMembers(ms, depth, owner).value != [] && SerialiseMembers(ms, depth, owner).value[0] == QUOTE
    ensures ParseMembers(SerialiseMembers(ms, depth, owner).value + [CLOSE_OBJECT] + rest) == Some((NormalMembers(ms, owner), rest))
    decreases owner, 1, |ms|
  {
    assert ms[0] in ms;
    var first := SerialiseMember(ms[0], depth, owner).value;
    var tail := if |ms| == 1 then rest else SerialiseMembers(ms[1..], depth, owner).value + [CLOSE_OBJECT] + rest;
    var after := [if |ms| == 1 then CLOSE_OBJECT else COMMA] + tail;
    ParsePrintedMember(ms[0], depth, owner, after);
    MembersText(ms, depth, owner, rest);
    if |ms| > 1 {
      assert after[1..] == tail;
      ParsePrintedMembers(ms[1..], depth, owner, rest);
    }
    ParseMembersText(first + after, Member(ms[0].key, Normal(ms[0].value)), after, NormalMembers(ms[1..], owner), rest);
  }

  // ---------------------------------------------------------------- printing order determines the value

  lemma {:induction false} NormalDeterminesValue(v: Json, w: Json)
    requires DistinctKeys(v) && DistinctKeys(w) && Normal(v) == Normal(w)
    ensures Same(v, w)
    decreases v
  {
    if v.Arr? {
      forall i | 0 <= i < |v.items|
        ensures Same(v.items[i], w.items[i])
      {
        assert NormalItems(v.items)[i] == NormalItems(w.items)[i];
        NormalDeterminesValue(v.items[i], w.items[i]);
      }
    } else if v.Obj? {
      NormalObject(v, w);
    }
  }

  lemma {:induction false} NormalObject(v: Json, w: Json)
    requires v.Obj? && w.Obj? && DistinctKeys(v) && DistinctKeys(w) && Normal(v) == Normal(w)
    ensures Same(v, w)
    decreases v, 0
  {
    var ms, ns := v.members, w.members;
    forall i | 0 <= i < |ms|
      ensures ms[i].key in Keys(ns)
    {
      var j := NormalMember(v, w, i);
      assert ns[j] in ns;
    }
    forall j | 0 <= j < |ns|
      ensures ns[j].key in Keys(ms)
    {
      var i := NormalMember(w, v, j);
      assert ms[i] in ms;
    }
    forall i, j | 0 <= i < |ms| && 0 <= j < |ns| && ms[i].key == ns[j].key
      ensures Same(ms[i].value, ns[j].value)
    {
      var j' := NormalMember(v, w, i);
      assert j' == j;
      NormalDeterminesValue(ms[i].value, ns[j].value);
    }
  }

  lemma NormalMember(v: Json, w: Json, i: nat) returns (j: nat)
    requires v.Obj? && w.Obj? && Normal(v) == Normal(w) && i < |v.members|
    ensures j < |w.members| && w.members[j].key == v.members[i].key
    ensures Normal(w.members[j].value) == Normal(v.members[i].value)
  {
    MembersWithin(v);
    MembersWithin(w);
    var p, q := SortMembers(v.members), SortMembers(w.members);
    assert v.members[i] in p;
    var k :| 0 <= k < |p| && p[k] == v.members[i];
    assert NormalMembers(p, v)[k] == NormalMembers(q, w)[k];
    assert q[k] in q;
    j :| 0 <= j < |w.members| && w.members[j] == q[k];
  }

  /** The main result: canonical texts are equal exactly when the values are equal up to member order. */
  lemma CanonicalTextIsFaithful(v: Json, w: Json)
    requires DistinctKeys(v) && DistinctKeys(w)
    requires Canonicalize(v).Ok? && Canonicalize(w).Ok?
    ensures Canonicalize(v) == Canonicalize(w) <==> Same(v, w)
  {
    if Same(v, w) {
      SamePrintsAlike(v, w, 0);
    }
    if Canonicalize(v) == Canonicalize(w) {
      ParsePrinted(v, 0, []);
      ParsePrinted(w, 0, []);
      NormalDeterminesValue(v, w);
    }
  }
}

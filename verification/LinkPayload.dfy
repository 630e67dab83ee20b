/**
 * The canonical JSON text each delegation link signs (packages/mandate/src/mandate.ts). It gives back
 * every field that went into it, by the faithfulness of canonical JSON.
 */
module LinkPayloads {
  import opened Prelude
  import opened Jcs
  import opened JcsFaithful
  import opened Model

  // ---------------------------------------------------------------- the hash each link signs

  function HexPair(b: Byte): Text { [HexDigit(b / 16), HexDigit(b % 16)] }

  function Hex(b: Bytes): (t: Text)
    ensures |t| == 2 * |b| && IsAscii(t)
  {
    if b == [] then [] else HexPair(b[0]) + Hex(b[1..])
  }

  lemma {:induction false} HexInjective(a: Bytes, b: Bytes)
    requires Hex(a) == Hex(b)
    ensures a == b
  {
    if a != [] {
      assert Hex(a)[0] == HexDigit(a[0] / 16) && Hex(a)[1] == HexDigit(a[0] % 16) && Hex(a)[2..] == Hex(a[1..]);
      assert Hex(b)[0] == HexDigit(b[0] / 16) && Hex(b)[1] == HexDigit(b[0] % 16) && Hex(b)[2..] == Hex(b[1..]);
      HexInjective(a[1..], b[1..]);
    }
  }

  /** type, version, mandateHash, index, role, publicKey, previousSignature */
  const LINK_KEYS: seq<Text> := [
    [0x74, 0x79, 0x70, 0x65],
    [0x76, 0x65, 0x72, 0x73, 0x69, 0x6f, 0x6e],
    [0x6d, 0x61, 0x6e, 0x64, 0x61, 0x74, 0x65, 0x48, 0x61, 0x73, 0x68],
    [0x69, 0x6e, 0x64, 0x65, 0x78],
    [0x72, 0x6f, 0x6c, 0x65],
    [0x70, 0x75, 0x62, 0x6c, 0x69, 0x63, 0x4b, 0x65, 0x79],
    [0x70, 0x72, 0x65, 0x76, 0x69, 0x6f, 0x75, 0x73, 0x53, 0x69, 0x67, 0x6e, 0x61, 0x74, 0x75, 0x72, 0x65]
  ]

  /** "atlasrail.mandate-link" and "0.1" */
  const LINK_TYPE: Text := [0x61, 0x74, 0x6c, 0x61, 0x73, 0x72, 0x61, 0x69, 0x6c, 0x2e, 0x6d, 0x61, 0x6e, 0x64, 0x61, 0x74, 0x65, 0x2d, 0x6c, 0x69, 0x6e, 0x6b]
  const LINK_VERSION: Text := [0x30, 0x2e, 0x31]

  function RoleText(role: Role): Text {
    match role
    case OWNER => [0x4f, 0x57, 0x4e, 0x45, 0x52]
    case APPROVER => [0x41, 0x50, 0x50, 0x52, 0x4f, 0x56, 0x45, 0x52]
    case _ => [0x41, 0x47, 0x45, 0x4e, 0x54]
  }

  /** The decimal spelling of a whole number. */
  function Decimal(n: nat): (t: NumberToken)
    ensures |t| == 1 <==> n < 10
    ensures IsDigit(t[0])
  {
    if n < 10 then [0x30 + n] else Decimal(n / 10) + [0x30 + n % 10]
  }

  lemma {:induction false} DecimalInjective(m: nat, n: nat)
    requires Decimal(m) == Decimal(n)
    ensures m == n
  {
    var s, t := Decimal(m), Decimal(n);
    if m >= 10 {
      assert s[..|s| - 1] == Decimal(m / 10) && t[..|t| - 1] == Decimal(n / 10);
      assert s[|s| - 1] == 0x30 + m % 10 && t[|t| - 1] == 0x30 + n % 10;
      DecimalInjective(m / 10, n / 10);
    } else {
      assert s[0] == 0x30 + m && t[0] == 0x30 + n;
    }
  }

  // ---------------------------------------------------------------- records

  /** An object with the given keys, whose values are texts, numbers or null. */
  function Record(keys: seq<Text>, values: seq<Json>): (v: Json)
    requires |keys| == |values|
    ensures v.Obj? && |v.members| == |keys| && forall i :: 0 <= i < |keys| ==> v.members[i] == Member(keys[i], values[i])
  {
    Obj(seq(|keys|, i requires 0 <= i < |keys| => Member(keys[i], values[i])))
  }

  ghost predicate GoodKeys(keys: seq<Text>) {
    && (forall i :: 0 <= i < |keys| ==> IsAscii(keys[i]))
    && (forall i, j :: 0 <= i < j < |keys| ==> keys[i] != keys[j])
  }

  predicate Flat(v: Json) { v.Null? || v.Number? || (v.Str? && IsAscii(v.text)) }

  lemma AsciiIsWellFormed(t: Text)
    requires IsAscii(t)
    ensures LoneFrom(t, 0).None?
  {
    LoneFromFindsAll(t, 0);
  }

  lemma {:induction false} FlatMembersPrint(ms: seq<Member>, owner: Json)
    requires Within(ms, owner) && forall m :: m in ms ==> IsAscii(m.key) && Flat(m.value)
    ensures SerialiseMembers(ms, 1, owner).Ok?
  {
    if ms != [] {
      assert ms[0] in ms;
      AsciiIsWellFormed(ms[0].key);
      if ms[0].value.Str? { AsciiIsWellFormed(ms[0].value.text); }
      assert Serialise(ms[0].value, 1).Ok?;
      assert SerialiseMember(ms[0], 1, owner).Ok?;
      FlatMembersPrint(ms[1..], owner);
    }
  }

  lemma RecordPrints(keys: seq<Text>, values: seq<Json>)
    requires |keys| == |values| && GoodKeys(keys) && forall i :: 0 <= i < |values| ==> Flat(values[i])
    ensures DistinctKeys(Record(keys, values)) && Canonicalize(Record(keys, values)).Ok?
  {
    var v := Record(keys, values);
    MembersWithin(v);
    FlatMembersPrint(SortMembers(v.members), v);
  }

  /** Flat records print alike only when they are equal. */
  lemma RecordTextInjective(keys: seq<Text>, xs: seq<Json>, ys: seq<Json>)
    requires |keys| == |xs| == |ys| && GoodKeys(keys)
    requires forall i :: 0 <= i < |keys| ==> Flat(xs[i]) && Flat(ys[i])
    requires Canonicalize(Record(keys, xs)) == Canonicalize(Record(keys, ys))
    ensures xs == ys
  {
    var v, u := Record(keys, xs), Record(keys, ys);
    RecordPrints(keys, xs);
    RecordPrints(keys, ys);
    CanonicalTextIsFaithful(v, u);
    forall i | 0 <= i < |keys|
      ensures xs[i] == ys[i]
    {
      assert v.members[i].key == u.members[i].key;
      assert Same(xs[i], ys[i]);
    }
  }

  // ---------------------------------------------------------------- the link record

  function LinkValues(p: LinkPayload): (vs: seq<Json>)
    ensures |vs| == 7 && forall i :: 0 <= i < 7 ==> Flat(vs[i])
  {
    [
      Str(LINK_TYPE),
      Str(LINK_VERSION),
      Str(Hex(p.mandateHash)),
      Number(Decimal(p.index)),
      Str(RoleText(p.role)),
      Str(p.publicKey),
      if p.previous.None? then Null else Str(p.previous.value)
    ]
  }

  lemma LinkKeyLengths()
    ensures |LINK_KEYS| == 7 && |LINK_KEYS[0]| == 4 && |LINK_KEYS[1]| == 7 && |LINK_KEYS[2]| == 11 && |LINK_KEYS[3]| == 5
    ensures |LINK_KEYS[4]| == 4 && |LINK_KEYS[5]| == 9 && |LINK_KEYS[6]| == 17
    ensures LINK_KEYS[0][0] != LINK_KEYS[4][0]
  {
  }

  lemma LinkKeysAscii()
    ensures |LINK_KEYS| == 7 && forall i :: 0 <= i < 7 ==> IsAscii(LINK_KEYS[i])
  {
  }

  lemma LinkKeysDiffer(i: nat, j: nat)
    requires i < j < 7 == |LINK_KEYS|
    ensures LINK_KEYS[i] != LINK_KEYS[j]
  {
    LinkKeyLengths();
    assert i != 0 || j != 4 ==> |LINK_KEYS[i]| != |LINK_KEYS[j]|;
  }

  lemma LinkKeysGood()
    ensures |LINK_KEYS| == 7 && GoodKeys(LINK_KEYS)
  {
    LinkKeysAscii();
    forall i, j | 0 <= i < j < 7
      ensures LINK_KEYS[i] != LINK_KEYS[j]
    {
      LinkKeysDiffer(i, j);
    }
  }

  function LinkText(p: LinkPayload): Text {
    LinkKeysGood();
    RecordPrints(LINK_KEYS, LinkValues(p));
    Canonicalize(Record(LINK_KEYS, LinkValues(p))).value
  }

  predicate Spelled(t: Text, word: string) { |t| == |word| && forall i :: 0 <= i < |word| ==> t[i] == word[i] as int }

  predicate IsField(m: Member, key: string, value: Json) { Spelled(m.key, key) && m.value == value }

  lemma LinkWords()
    ensures Spelled(LINK_TYPE, "atlasrail.mandate-link") && Spelled(LINK_VERSION, "0.1")
    ensures Spelled(RoleText(OWNER), "OWNER") && Spelled(RoleText(APPROVER), "APPROVER") && Spelled(RoleText(AGENT), "AGENT")
  {
  }

  lemma LinkKeyWords()
    ensures |LINK_KEYS| == 7 && Spelled(LINK_KEYS[0], "type") && Spelled(LINK_KEYS[1], "version") && Spelled(LINK_KEYS[2], "mandateHash")
    ensures Spelled(LINK_KEYS[3], "index") && Spelled(LINK_KEYS[4], "role") && Spelled(LINK_KEYS[5], "publicKey") && Spelled(LINK_KEYS[6], "previousSignature")
  {
  }

  /** The signed text is the canonical text of an object with these seven members. */
  lemma LinkFields(p: LinkPayload)
    ensures var v := Record(LINK_KEYS, LinkValues(p));
            && Canonicalize(v) == Ok(LinkText(p)) && |v.members| == 7
            && v.members[0].value.Str? && IsField(v.members[0], "type", v.members[0].value) && Spelled(v.members[0].value.text, "atlasrail.mandate-link")
            && v.members[1].value.Str? && IsField(v.members[1], "version", v.members[1].value) && Spelled(v.members[1].value.text, "0.1")
            && IsField(v.members[2], "mandateHash", Str(Hex(p.mandateHash)))
            && IsField(v.members[3], "index", Number(Decimal(p.index)))
            && IsField(v.members[4], "role", Str(RoleText(p.role)))
            && IsField(v.members[5], "publicKey", Str(p.publicKey))
            && IsField(v.members[6], "previousSignature", if p.previous.None? then Null else Str(p.previous.value))
  {
    LinkKeyWords();
    LinkWords();
    LinkKeysGood();
    RecordPrints(LINK_KEYS, LinkValues(p));
  }

  /** The signed text gives back every field that went into it. */
  lemma LinkTextInjective(p: LinkPayload, q: LinkPayload)
    requires p.role in {OWNER, APPROVER, AGENT} && q.role in {OWNER, APPROVER, AGENT}
    requires LinkText(p) == LinkText(q)
    ensures p == q
  {
    var xs, ys := LinkValues(p), LinkValues(q);
    LinkKeysGood();
    RecordPrints(LINK_KEYS, xs);
    RecordPrints(LINK_KEYS, ys);
    RecordTextInjective(LINK_KEYS, xs, ys);
    LinkValuesInjective(p, q);
  }

  lemma LinkValuesInjective(p: LinkPayload, q: LinkPayload)
    requires p.role in {OWNER, APPROVER, AGENT} && q.role in {OWNER, APPROVER, AGENT}
    requires LinkValues(p) == LinkValues(q)
    ensures p == q
  {
    var xs, ys := LinkValues(p), LinkValues(q);
    assert xs[2].text == ys[2].text && xs[3].token == ys[3].token && xs[4].text == ys[4].text && xs[5] == ys[5] && xs[6] == ys[6];
    HexInjective(p.mandateHash, q.mandateHash);
    DecimalInjective(p.index, q.index);
    RoleTextInjective(p.role, q.role);
  }

  lemma RoleTextInjective(a: Role, b: Role)
    requires a in {OWNER, APPROVER, AGENT} && b in {OWNER, APPROVER, AGENT} && RoleText(a) == RoleText(b)
    ensures a == b
  {
    assert RoleText(a)[0] == RoleText(b)[0] && RoleText(a)[1] == RoleText(b)[1];
  }

  /** linkHash over canonical text: two link payloads with one hash are two texts with one SHA-256. */
  lemma LinkCollisionIsTextCollision(sha: Text -> Digest, linkHash: LinkPayload -> Digest, s: set<LinkPayload>)
    requires forall p :: linkHash(p) == sha(LinkText(p))
    requires forall p :: p in s ==> p.role in {OWNER, APPROVER, AGENT}
    requires CollidesIn(linkHash, s)
    ensures CollidesIn(sha, set p | p in s :: LinkText(p))
  {
    var p, q :| p in s && q in s && p != q && linkHash(p) == linkHash(q);
    if LinkText(p) == LinkText(q) { LinkTextInjective(p, q); }
    Collide(sha, set r | r in s :: LinkText(r), LinkText(p), LinkText(q));
  }
}

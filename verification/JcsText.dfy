/**
 * What canonical text looks like, character by character (RFC 8785, sections 3.2.2.2 and 3.2.3): which values have
 * one, in which order an object prints its members, and how a string is escaped. JcsFaithful.dfy proves it faithful.
 */
module JcsText {
  import opened Prelude
  import opened Jcs
  import opened JcsFaithful

  // ---------------------------------------------------------------- which values can be canonicalised

  /** At most 64 levels of nesting, no lone surrogate, and nothing JSON cannot say. */
  predicate Printable(v: Json, depth: nat)
    decreases v
  {
    depth <= 64 &&
    match v
    case Null => true
    case Bool(_) => true
    case Number(_) => true
    case Str(t) => WellFormed(t)
    case Arr(items) => forall i :: 0 <= i < |items| ==> Printable(items[i], depth + 1)
    case Obj(ms) => forall i :: 0 <= i < |ms| ==> WellFormed(ms[i].key) && Printable(ms[i].value, depth + 1)
    case _ => false
  }

  lemma {:induction false} CanonicalizesIff(v: Json, depth: nat)
    ensures Serialise(v, depth).Ok? <==> Printable(v, depth)
    decreases v, 1, 0
  {
    if v.Str? {
      LoneFromFindsAll(v.text, 0);
    } else if v.Arr? {
      ItemsIff(v.items, depth + 1);
    } else if v.Obj? {
      ObjectIff(v, depth);
    }
  }

  lemma {:induction false} ObjectIff(v: Json, depth: nat)
    requires v.Obj?
    ensures Serialise(v, depth).Ok? <==> Printable(v, depth)
    decreases v, 0, |v.members| + 1
  {
    MembersWithin(v);
    var sorted := SortMembers(v.members);
    MembersIff(sorted, depth + 1, v);
    SortingKeepsPrintable(v.members, depth + 1);
    assert Serialise(v, depth).Ok? <==> depth <= 64 && SerialiseMembers(sorted, depth + 1, v).Ok?;
  }

  lemma SortingKeepsPrintable(ms: seq<Member>, depth: nat)
    ensures (forall m :: m in SortMembers(ms) ==> MemberPrintable(m, depth)) <==>
            forall i :: 0 <= i < |ms| ==> WellFormed(ms[i].key) && Printable(ms[i].value, depth)
  {
    var sorted := SortMembers(ms);
    if forall i :: 0 <= i < |ms| ==> WellFormed(ms[i].key) && Printable(ms[i].value, depth) {
      forall m | m in sorted
        ensures MemberPrintable(m, depth)
      {
        assert m in ms;
        var i :| 0 <= i < |ms| && ms[i] == m;
      }
    }
    if forall m :: m in sorted ==> MemberPrintable(m, depth) {
      forall i | 0 <= i < |ms|
        ensures WellFormed(ms[i].key) && Printable(ms[i].value, depth)
      {
        assert ms[i] in sorted;
        assert MemberPrintable(ms[i], depth);
      }
    }
  }

  predicate MemberPrintable(m: Member, depth: nat) { WellFormed(m.key) && Printable(m.value, depth) }

  lemma {:induction false} ItemsIff(items: seq<Json>, depth: nat)
    ensures SerialiseItems(items, depth).Ok? <==> forall i :: 0 <= i < |items| ==> Printable(items[i], depth)
    decreases items, 0, |items|
  {
    if items != [] {
      CanonicalizesIff(items[0], depth);
      ItemsIff(items[1..], depth);
      assert forall i :: 0 < i < |items| ==> items[i] == items[1..][i - 1];
      assert |items| == 1 ==> items[1..] == [];
    }
  }

  lemma {:induction false} MembersIff(ms: seq<Member>, depth: nat, owner: Json)
    requires Within(ms, owner)
    ensures SerialiseMembers(ms, depth, owner).Ok? <==> forall m :: m in ms ==> MemberPrintable(m, depth)
    decreases owner, 0, |ms|
  {
    if ms != [] {
      assert ms[0] in ms;
      LoneFromFindsAll(ms[0].key, 0);
      CanonicalizesIff(ms[0].value, depth);
      MembersIff(ms[1..], depth, owner);
      assert SerialiseMember(ms[0], depth, owner).Ok? <==> MemberPrintable(ms[0], depth);
      assert forall m :: m in ms <==> m == ms[0] || m in ms[1..];
      assert |ms| == 1 ==> ms[1..] == [];
    }
  }

  /** The surrogate an error names is there, and alone. */
  predicate LoneAt(s: Text, j: nat, e: CanonError) {
    && j < |s|
    && (|| (e == LoneHigh && 0xd800 <= s[j] <= 0xdbff && !(j + 1 < |s| && 0xdc00 <= s[j + 1] <= 0xdfff))
        || (e == LoneLow && 0xdc00 <= s[j] <= 0xdfff && !(j > 0 && 0xd800 <= s[j - 1] <= 0xdbff)))
  }

  lemma {:induction false} ReportsALoneOne(s: Text, i: nat)
    requires i <= |s| && (i > 0 ==> !IsHigh(s[i - 1]))
    ensures LoneFrom(s, i).Some? ==> exists j :: i <= j < |s| && LoneAt(s, j, LoneFrom(s, i).value)
    decreases |s| - i
  {
    if i < |s| {
      if IsHigh(s[i]) && i + 1 < |s| && IsLow(s[i + 1]) {
        ReportsALoneOne(s, i + 2);
      } else if IsHigh(s[i]) {
        assert LoneAt(s, i, LoneHigh);
      } else if IsLow(s[i]) {
        assert LoneAt(s, i, LoneLow);
      } else {
        ReportsALoneOne(s, i + 1);
      }
    }
  }

  // ---------------------------------------------------------------- member order

  /** Before in UTF-16 code unit order: at the first difference, the smaller unit or the shorter text. */
  predicate Precedes(a: Text, b: Text) {
    exists k :: 0 <= k <= |a| && PrecedesAt(a, b, k)
  }

  predicate PrecedesAt(a: Text, b: Text, k: nat) {
    k <= |a| && k < |b| && (forall i :: 0 <= i < k ==> a[i] == b[i]) && (k == |a| || a[k] < b[k])
  }

  lemma {:induction false} LessIsCodeUnitOrder(a: Text, b: Text)
    ensures Less(a, b) <==> Precedes(a, b)
  {
    if b == [] || a == [] {
      if b != [] { assert PrecedesAt(a, b, 0); }
    } else if a[0] != b[0] {
      if a[0] < b[0] { assert PrecedesAt(a, b, 0); }
      if Precedes(a, b) {
        var k :| 0 <= k <= |a| && PrecedesAt(a, b, k);
      }
    } else {
      LessIsCodeUnitOrder(a[1..], b[1..]);
      if Precedes(a[1..], b[1..]) {
        var k :| 0 <= k <= |a[1..]| && PrecedesAt(a[1..], b[1..], k);
        PrecedesShift(a, b, k + 1);
      }
      if Precedes(a, b) {
        var k :| 0 <= k <= |a| && PrecedesAt(a, b, k);
        PrecedesShift(a, b, k);
      }
    }
  }

  lemma PrecedesShift(a: Text, b: Text, k: nat)
    requires a != [] && b != [] && a[0] == b[0] && k > 0
    ensures PrecedesAt(a, b, k) <==> PrecedesAt(a[1..], b[1..], k - 1)
  {
    assert forall i :: 0 < i < |a| ==> a[i] == a[1..][i - 1];
    assert forall i :: 0 < i < |b| ==> b[i] == b[1..][i - 1];
  }

  /** An object's text lists its members in ascending UTF-16 code unit order of their keys. */
  lemma KeysAscend(v: Json, i: nat, j: nat)
    requires v.Obj? && DistinctKeys(v) && Canonicalize(v).Ok? && i < j < |v.members|
    ensures ParseValue(Canonicalize(v).value).Some?
    ensures var read := ParseValue(Canonicalize(v).value).value.0;
            && read.Obj? && |read.members| == |v.members|
            && Precedes(read.members[i].key, read.members[j].key)
  {
    ParsePrinted(v, 0, []);
    assert Canonicalize(v).value + [] == Canonicalize(v).value;
    MembersWithin(v);
    SortSorts(v.members);
    var sorted := SortMembers(v.members);
    assert Less(sorted[i].key, sorted[j].key);
    LessIsCodeUnitOrder(sorted[i].key, sorted[j].key);
  }

  // ---------------------------------------------------------------- escapes

  /** The two characters that would end or escape the string, the five short escapes, and lowercase hex for other controls. */
  lemma EscapesExactly(c: CodeUnit)
    ensures c == 0x22 ==> Escape(c) == [0x5c, 0x22]
    ensures c == 0x5c ==> Escape(c) == [0x5c, 0x5c]
    ensures c == 0x08 ==> Escape(c) == [0x5c, 0x62]
    ensures c == 0x09 ==> Escape(c) == [0x5c, 0x74]
    ensures c == 0x0a ==> Escape(c) == [0x5c, 0x6e]
    ensures c == 0x0c ==> Escape(c) == [0x5c, 0x66]
    ensures c == 0x0d ==> Escape(c) == [0x5c, 0x72]
    ensures c < 0x20 && c !in {0x08, 0x09, 0x0a, 0x0c, 0x0d} ==>
              |Escape(c)| == 6 && Escape(c)[..4] == [0x5c, 0x75, 0x30, 0x30] &&
              Escape(c)[4] == 0x30 + c / 16 &&
              Escape(c)[5] == (if c % 16 < 10 then 0x30 + c % 16 else 0x61 + c % 16 - 10)
    ensures c >= 0x20 && c != 0x22 && c != 0x5c ==> Escape(c) == [c]
  {
  }

  const A: Member := Member([0x61], Str([0x0a, 0x22]))
  const B: Member := Member([0x62], Arr([Number([0x31]), Null]))

  lemma ABInOrder()
    ensures SortMembers([B, A]) == [A, B]
  {
    assert [B, A][1..] == [A] && [A][1..] == [];
    assert Insert(A, []) == [A];
    assert SortMembers([A]) == [A];
    assert Less(A.key, B.key);
    assert Insert(B, [A]) == [A] + Insert(B, []);
  }

  lemma TwoMembers(first: Member, second: Member, v: Json)
    requires Within([first, second], v) && SerialiseMember(first, 1, v).Ok? && SerialiseMember(second, 1, v).Ok?
    ensures SerialiseMembers([first, second], 1, v) ==
            Ok(SerialiseMember(first, 1, v).value + [COMMA] + SerialiseMember(second, 1, v).value)
  {
    assert [first, second][1..] == [second];
    assert SerialiseMembers([second], 1, v) == SerialiseMember(second, 1, v);
  }

  lemma ObjectText(v: Json, body: Text)
    requires v.Obj? && (MembersWithin(v); SerialiseMembers(SortMembers(v.members), 1, v) == Ok(body))
    ensures Canonicalize(v) == Ok([OPEN_OBJECT] + body + [CLOSE_OBJECT])
  {
  }

  /** The text {"a":"\n\"","b":[1,null]} of an object that was given b first. */
  lemma KnownText()
    ensures Canonicalize(Obj([B, A])) ==
            Ok([0x7b, 0x22, 0x61, 0x22, 0x3a, 0x22, 0x5c, 0x6e, 0x5c, 0x22, 0x22, 0x2c,
                0x22, 0x62, 0x22, 0x3a, 0x5b, 0x31, 0x2c, 0x6e, 0x75, 0x6c, 0x6c, 0x5d, 0x7d])
  {
    var v := Obj([B, A]);
    assert v.members[0] == B && v.members[1] == A;
    ABInOrder();
    MembersWithin(v);
    TextOfA(v);
    TextOfB(v);
    TwoMembers(A, B, v);
    ObjectText(v, SerialiseMember(A, 1, v).value + [COMMA] + SerialiseMember(B, 1, v).value);
    Assembled(SerialiseMember(A, 1, v).value, SerialiseMember(B, 1, v).value);
  }

  lemma Assembled(first: Text, second: Text)
    requires first == [0x22, 0x61, 0x22, 0x3a, 0x22, 0x5c, 0x6e, 0x5c, 0x22, 0x22]
    requires second == [0x22, 0x62, 0x22, 0x3a, 0x5b, 0x31, 0x2c, 0x6e, 0x75, 0x6c, 0x6c, 0x5d]
    ensures [OPEN_OBJECT] + (first + [COMMA] + second) + [CLOSE_OBJECT] ==
            [0x7b, 0x22, 0x61, 0x22, 0x3a, 0x22, 0x5c, 0x6e, 0x5c, 0x22, 0x22, 0x2c,
             0x22, 0x62, 0x22, 0x3a, 0x5b, 0x31, 0x2c, 0x6e, 0x75, 0x6c, 0x6c, 0x5d, 0x7d]
  {
  }

  lemma TextOfA(v: Json)
    requires A.value < v
    ensures SerialiseMember(A, 1, v) == Ok([0x22, 0x61, 0x22, 0x3a, 0x22, 0x5c, 0x6e, 0x5c, 0x22, 0x22])
  {
    KeyText(0x61);
    LoneFromFindsAll([0x0a, 0x22], 0);
    assert [0x0a, 0x22][1..] == [0x22] && [0x22][1..] == [];
    assert EscapeAll([0x22]) == [0x5c, 0x22];
    var text: Text := [0x0a, 0x22];
    assert EscapeAll(text) == [0x5c, 0x6e, 0x5c, 0x22];
    assert Serialise(Str(text), 1) == Ok(Quote(text));
    assert Quote(text) == [0x22, 0x5c, 0x6e, 0x5c, 0x22, 0x22];
    var key: Text := [0x61];
    assert SerialiseMember(Member(key, Str(text)), 1, v) == Ok(Quote(key) + [COLON] + Quote(text));
    assert Quote(key) + [COLON] + Quote(text) == [0x22, 0x61, 0x22, 0x3a, 0x22, 0x5c, 0x6e, 0x5c, 0x22, 0x22];
  }

  lemma TextOfB(v: Json)
    requires B.value < v
    ensures SerialiseMember(B, 1, v) ==
            Ok([0x22, 0x62, 0x22, 0x3a, 0x5b, 0x31, 0x2c, 0x6e, 0x75, 0x6c, 0x6c, 0x5d])
  {
    KeyText(0x62);
    var items := [Number([0x31]), Null];
    assert items[1..] == [Null];
    assert SerialiseItems([Null], 2) == Ok(NULL);
    assert SerialiseItems(items, 2) == Ok([0x31] + [COMMA] + NULL);
    var body: Text := [OPEN_ARRAY] + ([0x31] + [COMMA] + NULL) + [CLOSE_ARRAY];
    assert Serialise(Arr(items), 1) == Ok(body);
    var key: Text := [0x62];
    assert SerialiseMember(Member(key, Arr(items)), 1, v) == Ok(Quote(key) + [COLON] + body);
    assert Quote(key) + [COLON] + body == [0x22, 0x62, 0x22, 0x3a, 0x5b, 0x31, 0x2c, 0x6e, 0x75, 0x6c, 0x6c, 0x5d];
  }

  lemma KeyText(c: CodeUnit)
    requires 0x61 <= c <= 0x62
    ensures LoneFrom([c], 0).None? && Quote([c]) == [0x22, c, 0x22]
  {
    LoneFromFindsAll([c], 0);
    assert [c][1..] == [];
    assert EscapeAll([c]) == [c];
  }
}

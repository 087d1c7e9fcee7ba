/** What the claim decoding means: every claim is its last member's, and the order hardly matters. */
module ClaimsLaws {
  import opened Wrappers
  import opened Claims

  /** The last member with a key. */
  function Last(ms: seq<Member>, key: string): Option<Member> {
    if ms == [] then None
    else if ms[|ms| - 1].key == key then Some(ms[|ms| - 1])
    else Last(ms[..|ms| - 1], key)
  }

  const TEXTS: set<string> := {"aud", "jti", "iss", "sub", "sessionId"}
  const NUMBERS: set<string> := {"exp", "iat", "nbf"}
  const RESERVED: set<string> := TEXTS + NUMBERS + {"userId"}

  /** A member of the type its claim demands; the others only have to parse. */
  predicate WellTyped(codec: Codec, m: Member) {
    if m.key in TEXTS then m.kind == KString
    else if m.key in NUMBERS then m.kind == KNumber
    else m.kind == KObject || m.kind == KArray ==> codec.unmarshal(m.raw) != None
  }

  /** What the codec makes of the value of a member, by its kind. */
  function AnyOf(codec: Codec, m: Member): Any {
    if m.kind == KString then Text(codec.parseString(m.raw))
    else if m.kind == KNumber then Float(codec.parseFloat(m.raw))
    else if m.kind == KBoolean then Bool(codec.parseBoolean(m.raw))
    else if (m.kind == KObject || m.kind == KArray) && codec.unmarshal(m.raw).Some? then codec.unmarshal(m.raw).value
    else Nil
  }

  function StringClaim(codec: Codec, ms: seq<Member>, key: string, otherwise: string): string {
    match Last(ms, key) case Some(m) => codec.parseString(m.raw) case None => otherwise
  }

  function NumberClaim(codec: Codec, ms: seq<Member>, key: string, otherwise: int): int {
    match Last(ms, key) case Some(m) => codec.parseInt(m.raw) case None => otherwise
  }

  function Unreserved(ms: seq<Member>): set<string> {
    set m | m in ms && m.key !in RESERVED :: m.key
  }

  function ExtraClaims(codec: Codec, ms: seq<Member>): map<string, Any> {
    map k | k in Unreserved(ms) :: match Last(ms, k) case Some(m) => AnyOf(codec, m) case None => Nil
  }

  /** Claim by claim, the value of the last member with its key. */
  function LastWins(codec: Codec, c: View, ms: seq<Member>): View {
    View(match Last(ms, "userId") case Some(m) => AnyOf(codec, m) case None => c.userID,
         StringClaim(codec, ms, "sessionId", c.sessionID),
         c.extra + ExtraClaims(codec, ms),
         StringClaim(codec, ms, "aud", c.audience),
         NumberClaim(codec, ms, "exp", c.expiresAt),
         StringClaim(codec, ms, "jti", c.id),
         NumberClaim(codec, ms, "iat", c.issuedAt),
         StringClaim(codec, ms, "iss", c.issuer),
         NumberClaim(codec, ms, "nbf", c.notBefore),
         StringClaim(codec, ms, "sub", c.subject))
  }

  lemma ExtraOneMore(codec: Codec, front: seq<Member>, m: Member)
    ensures ExtraClaims(codec, front + [m])
            == if m.key in RESERVED then ExtraClaims(codec, front)
               else ExtraClaims(codec, front)[m.key := AnyOf(codec, m)]
  {
    var ms := front + [m];
    assert ms[..|ms| - 1] == front && ms[|ms| - 1] == m;
    assert forall x :: x in ms <==> x in front || x == m;
    assert Unreserved(ms) == Unreserved(front) + if m.key in RESERVED then {} else {m.key};
  }

  lemma LastOneMore(front: seq<Member>, m: Member, key: string)
    ensures Last(front + [m], key) == if m.key == key then Some(m) else Last(front, key)
  {
    assert (front + [m])[..|front|] == front;
  }

  /** Accepting one member moves `LastWins` on by that member. */
  lemma AcceptIsLastWins(codec: Codec, c: View, front: seq<Member>, m: Member)
    requires WellTyped(codec, m)
    ensures Accept(codec, LastWins(codec, c, front), m) == Some(LastWins(codec, c, front + [m]))
  {
    ExtraAfter(codec, c, front, m);
    if m.key in TEXTS {
      AcceptText(codec, c, front, m);
    } else if m.key in NUMBERS {
      AcceptNumber(codec, c, front, m);
    } else {
      AcceptAny(codec, c, front, m);
    }
  }

  lemma AllLastOneMore(front: seq<Member>, m: Member)
    ensures forall key :: Last(front + [m], key) == if m.key == key then Some(m) else Last(front, key)
  {
    forall key {
      LastOneMore(front, m, key);
    }
  }

  lemma AcceptText(codec: Codec, c: View, front: seq<Member>, m: Member)
    requires m.key in TEXTS && m.kind == KString
    requires c.extra + ExtraClaims(codec, front + [m]) == c.extra + ExtraClaims(codec, front)
    ensures Accept(codec, LastWins(codec, c, front), m) == Some(LastWins(codec, c, front + [m]))
  {
    AllLastOneMore(front, m);
  }

  lemma AcceptNumber(codec: Codec, c: View, front: seq<Member>, m: Member)
    requires m.key in NUMBERS && m.kind == KNumber
    requires c.extra + ExtraClaims(codec, front + [m]) == c.extra + ExtraClaims(codec, front)
    ensures Accept(codec, LastWins(codec, c, front), m) == Some(LastWins(codec, c, front + [m]))
  {
    AllLastOneMore(front, m);
  }

  lemma AcceptAny(codec: Codec, c: View, front: seq<Member>, m: Member)
    requires m.key !in TEXTS && m.key !in NUMBERS && WellTyped(codec, m)
    requires c.extra + ExtraClaims(codec, front + [m])
             == if m.key in RESERVED then c.extra + ExtraClaims(codec, front)
                else (c.extra + ExtraClaims(codec, front))[m.key := AnyOf(codec, m)]
    ensures Accept(codec, LastWins(codec, c, front), m) == Some(LastWins(codec, c, front + [m]))
  {
    AllLastOneMore(front, m);
  }

  lemma ExtraAfter(codec: Codec, c: View, front: seq<Member>, m: Member)
    ensures c.extra + ExtraClaims(codec, front + [m])
            == if m.key in RESERVED then c.extra + ExtraClaims(codec, front)
               else (c.extra + ExtraClaims(codec, front))[m.key := AnyOf(codec, m)]
  {
    ExtraOneMore(codec, front, m);
    if m.key !in RESERVED {
      var extra, v := ExtraClaims(codec, front), AnyOf(codec, m);
      assert c.extra + extra[m.key := v] == (c.extra + extra)[m.key := v];
    }
  }

  /** The decoding succeeds iff every member is well typed, and then the last member of each key wins. */
  lemma {:induction false} DecodeIsLastWins(codec: Codec, c: View, ms: seq<Member>)
    ensures Fold(codec, c, ms).failed <==> exists m :: m in ms && !WellTyped(codec, m)
    ensures !Fold(codec, c, ms).failed ==> Fold(codec, c, ms).claims == LastWins(codec, c, ms)
  {
    if ms == [] {
      assert c.extra + ExtraClaims(codec, ms) == c.extra;
    } else {
      var front, m := ms[..|ms| - 1], ms[|ms| - 1];
      assert ms == front + [m];
      assert forall x :: x in ms <==> x in front || x == m;
      DecodeIsLastWins(codec, c, front);
      if WellTyped(codec, m) {
        AcceptIsLastWins(codec, c, front, m);
      }
    }
  }

  /** The scalar claims and `userId` never end up in `Extra`, whether the decoding fails or not. */
  lemma {:induction false} NoReservedInExtra(codec: Codec, c: View, ms: seq<Member>)
    requires forall k | k in c.extra :: k !in RESERVED
    ensures forall k | k in Fold(codec, c, ms).claims.extra :: k !in RESERVED
  {
    if ms != [] {
      NoReservedInExtra(codec, c, ms[..|ms| - 1]);
    }
  }

  // ---------------------------------------------------------------- the order of the members

  predicate DistinctKeys(ms: seq<Member>) {
    forall i, j | 0 <= i < j < |ms| :: ms[i].key != ms[j].key
  }

  lemma {:induction false} LastIsMember(ms: seq<Member>, key: string)
    ensures Last(ms, key).Some? ==> Last(ms, key).value in ms && Last(ms, key).value.key == key
    ensures Last(ms, key) == None <==> forall m | m in ms :: m.key != key
  {
    if ms != [] {
      LastIsMember(ms[..|ms| - 1], key);
      assert ms == ms[..|ms| - 1] + [ms[|ms| - 1]];
    }
  }

  lemma LastOfDistinct(ms: seq<Member>, ms': seq<Member>, key: string)
    requires DistinctKeys(ms) && DistinctKeys(ms') && forall m :: m in ms <==> m in ms'
    ensures Last(ms, key) == Last(ms', key)
  {
    LastIsMember(ms, key);
    LastIsMember(ms', key);
  }

  /** Decoded claims depend on the set of members only. */
  lemma SameMembersSameClaims(codec: Codec, c: View, ms: seq<Member>, ms': seq<Member>)
    requires DistinctKeys(ms) && DistinctKeys(ms') && forall m :: m in ms <==> m in ms'
    ensures LastWins(codec, c, ms) == LastWins(codec, c, ms')
  {
    forall key {
      LastOfDistinct(ms, ms', key);
    }
    assert Unreserved(ms) == Unreserved(ms');
    assert ExtraClaims(codec, ms) == ExtraClaims(codec, ms');
  }

  /** With distinct keys, any reordering succeeds or fails alike, and decodes to equal claims. */
  lemma OrderDoesNotMatter(codec: Codec, c: View, ms: seq<Member>, ms': seq<Member>)
    requires multiset(ms) == multiset(ms') && forall i, j | 0 <= i < j < |ms| :: ms[i].key != ms[j].key
    ensures Fold(codec, c, ms).failed == Fold(codec, c, ms').failed
    ensures !Fold(codec, c, ms).failed ==> Fold(codec, c, ms').claims == Fold(codec, c, ms).claims
  {
    forall m
      ensures m in ms <==> m in ms'
    {
      assert m in ms <==> m in multiset(ms);
      assert m in ms' <==> m in multiset(ms');
    }
    StillDistinct(ms, ms');
    DecodeIsLastWins(codec, c, ms);
    DecodeIsLastWins(codec, c, ms');
    SameMembersSameClaims(codec, c, ms, ms');
  }

  /** A reordering of members with distinct keys has distinct keys. */
  lemma StillDistinct(ms: seq<Member>, ms': seq<Member>)
    requires DistinctKeys(ms) && multiset(ms) == multiset(ms')
    ensures DistinctKeys(ms')
  {
    forall i, j | 0 <= i < j < |ms'|
      ensures ms'[i].key != ms'[j].key
    {
      var a, b := ms'[i], ms'[j];
      assert ms' == ms'[..i] + [a] + ms'[i + 1..j] + [b] + ms'[j + 1..];
      assert multiset(ms')[a] >= if a == b then 2 else 1;
      assert a in multiset(ms) && b in multiset(ms);
      var p :| 0 <= p < |ms| && ms[p] == a;
      var q :| 0 <= q < |ms| && ms[q] == b;
      OnceOnly(ms, p);
    }
  }

  lemma OnceOnly(ms: seq<Member>, p: nat)
    requires DistinctKeys(ms) && p < |ms|
    ensures multiset(ms)[ms[p]] == 1
  {
    assert ms == ms[..p] + [ms[p]] + ms[p + 1..];
    assert ms[p] !in ms[..p] && ms[p] !in ms[p + 1..];
  }

  // ---------------------------------------------------------------- what the scripts see

  /**
   After a successful decoding of a fresh token, the map holds for every key that is not reserved the
   last value the payload gives it, including `_id` and `jwtInfo`, which the payload can override;
   no other key appears besides those two.
   */
  lemma PresentedIsLast(codec: Codec, ms: seq<Member>, key: string)
    requires !Fold(codec, FRESH, ms).failed
    ensures var res := Presented(Fold(codec, FRESH, ms).claims);
            if key !in RESERVED && Last(ms, key).Some? then
              key in res && res[key] == AnyOf(codec, Last(ms, key).value)
            else key in res <==> key == "_id" || key == "jwtInfo"
  {
    DecodeIsLastWins(codec, FRESH, ms);
    ExtraIs(codec, ms, key);
    assert Fold(codec, FRESH, ms).claims.extra == map[] + ExtraClaims(codec, ms);
  }

  lemma ExtraIs(codec: Codec, ms: seq<Member>, key: string)
    ensures key in ExtraClaims(codec, ms) <==> key !in RESERVED && Last(ms, key).Some?
    ensures key in ExtraClaims(codec, ms) ==> ExtraClaims(codec, ms)[key] == AnyOf(codec, Last(ms, key).value)
  {
    LastIsMember(ms, key);
  }

  /** Without an `_id` member of its own, the map shows the last `userId` under that name. */
  lemma PresentedUser(codec: Codec, ms: seq<Member>)
    requires !Fold(codec, FRESH, ms).failed && Last(ms, "_id") == None
    ensures Presented(Fold(codec, FRESH, ms).claims)["_id"]
            == match Last(ms, "userId") case Some(m) => AnyOf(codec, m) case None => Nil
  {
    DecodeIsLastWins(codec, FRESH, ms);
    ExtraIs(codec, ms, "_id");
    assert Fold(codec, FRESH, ms).claims.extra == map[] + ExtraClaims(codec, ms);
  }

  /** Without a `jwtInfo` member, the entry of that name holds five claims, each of its last member. */
  lemma PresentedInfo(codec: Codec, ms: seq<Member>)
    requires !Fold(codec, FRESH, ms).failed && Last(ms, "jwtInfo") == None
    ensures Presented(Fold(codec, FRESH, ms).claims)["jwtInfo"]
            == Fields(map["userId" := match Last(ms, "userId") case Some(m) => AnyOf(codec, m) case None => Nil,
                          "sessionId" := Text(StringClaim(codec, ms, "sessionId", "")),
                          "issuedAt" := Int(NumberClaim(codec, ms, "iat", 0)),
                          "ussiedBy" := Text(StringClaim(codec, ms, "iss", "")),
                          "expiredAt" := Int(NumberClaim(codec, ms, "exp", 0))])
  {
    DecodeIsLastWins(codec, FRESH, ms);
    ExtraIs(codec, ms, "jwtInfo");
    assert Fold(codec, FRESH, ms).claims.extra == map[] + ExtraClaims(codec, ms);
  }
}

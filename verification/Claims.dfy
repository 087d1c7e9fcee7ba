/**
 The decoding of a token's claims in internet/jwt.go (section 4 of RFC 7519): a fold over the members
 of the payload, in the order the JSON scanner reports them.
 */
module Claims {
  import opened Wrappers

  /** The type tag the scanner gives a value. */
  datatype Kind = KString | KNumber | KObject | KArray | KBoolean | KNull | KUnknown

  /** One member of the payload object, with the raw text of its value. */
  datatype Member = Member(key: string, raw: string, kind: Kind)

  /** An `interface{}`. */
  datatype Any = Nil | Text(s: string) | Float(r: real) | Int(i: int) | Bool(b: bool) | Tree(text: string)
               | Fields(m: map<string, Any>)

  /** The scalar parsers of the scanner, which are total, and `json.Unmarshal`, which may fail. */
  datatype Codec = Codec(
    parseString: string -> string,
    parseInt: string -> int,
    parseFloat: string -> real,
    parseBoolean: string -> bool,
    unmarshal: string -> Option<Any>)

  datatype View = View(
    userID: Any, sessionID: string, extra: map<string, Any>,
    audience: string, expiresAt: int, id: string, issuedAt: int, issuer: string, notBefore: int, subject: string)

  const FRESH := View(Nil, "", map[], "", 0, "", 0, "", 0, "")

  function ParseInterface(codec: Codec, raw: string, kind: Kind): Option<Any> {
    match kind
    case KString => Some(Text(codec.parseString(raw)))
    case KNumber => Some(Float(codec.parseFloat(raw)))
    case KObject => codec.unmarshal(raw)
    case KArray => codec.unmarshal(raw)
    case KBoolean => Some(Bool(codec.parseBoolean(raw)))
    case KNull => Some(Nil)
    case KUnknown => Some(Nil)
  }

  predicate IsStringClaim(key: string) {
    key == "aud" || key == "jti" || key == "iss" || key == "sub" || key == "sessionId"
  }

  predicate IsNumberClaim(key: string) {
    key == "exp" || key == "iat" || key == "nbf"
  }

  /** The callback for one member; `None` is its error, which leaves the claims as they were. */
  function Accept(codec: Codec, c: View, m: Member): Option<View> {
    if IsStringClaim(m.key) then
      if m.kind != KString then None
      else
        var s := codec.parseString(m.raw);
        Some(if m.key == "aud" then c.(audience := s)
             else if m.key == "jti" then c.(id := s)
             else if m.key == "iss" then c.(issuer := s)
             else if m.key == "sub" then c.(subject := s)
             else c.(sessionID := s))
    else if IsNumberClaim(m.key) then
      if m.kind != KNumber then None
      else
        var n := codec.parseInt(m.raw);
        Some(if m.key == "exp" then c.(expiresAt := n)
             else if m.key == "iat" then c.(issuedAt := n)
             else c.(notBefore := n))
    else
      match ParseInterface(codec, m.raw, m.kind)
      case None => None
      case Some(v) => Some(if m.key == "userId" then c.(userID := v) else c.(extra := c.extra[m.key := v]))
  }

  datatype Decoded = Decoded(claims: View, failed: bool)

  /** `ObjectEach` with that callback: it stops at the first error. */
  function Fold(codec: Codec, c: View, ms: seq<Member>): Decoded {
    if ms == [] then Decoded(c, false)
    else
      var d := Fold(codec, c, ms[..|ms| - 1]);
      if d.failed then d
      else
        match Accept(codec, d.claims, ms[|ms| - 1])
        case None => Decoded(d.claims, true)
        case Some(c') => Decoded(c', false)
  }

  lemma {:induction false} FailureSticks(codec: Codec, c: View, ms: seq<Member>, n: nat)
    requires n <= |ms| && Fold(codec, c, ms[..n]).failed
    ensures Fold(codec, c, ms) == Fold(codec, c, ms[..n])
    decreases |ms|
  {
    if n == |ms| {
      assert ms[..n] == ms;
    } else {
      var front := ms[..|ms| - 1];
      assert front[..n] == ms[..n];
      FailureSticks(codec, c, front, n);
    }
  }

  class BlankClaims {
    var UserID: Any
    var SessionID: string
    var Extra: map<string, Any>
    var Audience: string
    var ExpiresAt: int
    var Id: string
    var IssuedAt: int
    var Issuer: string
    var NotBefore: int
    var Subject: string

    constructor ()
      ensures Current() == FRESH
    {
      UserID, SessionID, Extra := Nil, "", map[];
      Audience, ExpiresAt, Id, IssuedAt := "", 0, "", 0;
      Issuer, NotBefore, Subject := "", 0, "";
    }

    function Current(): View
      reads this
    {
      View(UserID, SessionID, Extra, Audience, ExpiresAt, Id, IssuedAt, Issuer, NotBefore, Subject)
    }

    method Callback(codec: Codec, m: Member) returns (failed: bool)
      modifies this
      ensures failed <==> Accept(codec, old(Current()), m) == None
      ensures Current() == if failed then old(Current()) else Accept(codec, old(Current()), m).value
    {
      failed := false;
      match m.key
      case "aud" =>
        if m.kind != KString { return true; }
        Audience := codec.parseString(m.raw);
      case "exp" =>
        if m.kind != KNumber { return true; }
        ExpiresAt := codec.parseInt(m.raw);
      case "jti" =>
        if m.kind != KString { return true; }
        Id := codec.parseString(m.raw);
      case "iat" =>
        if m.kind != KNumber { return true; }
        IssuedAt := codec.parseInt(m.raw);
      case "iss" =>
        if m.kind != KString { return true; }
        Issuer := codec.parseString(m.raw);
      case "nbf" =>
        if m.kind != KNumber { return true; }
        NotBefore := codec.parseInt(m.raw);
      case "sub" =>
        if m.kind != KString { return true; }
        Subject := codec.parseString(m.raw);
      case "sessionId" =>
        if m.kind != KString { return true; }
        SessionID := codec.parseString(m.raw);
      case "userId" =>
        var val := ParseInterface(codec, m.raw, m.kind);
        if val == None { return true; }
        UserID := val.value;
      case _ =>
        var val := ParseInterface(codec, m.raw, m.kind);
        if val == None { return true; }
        Extra := Extra[m.key := val.value];
    }

    /** `malformed` is the scanner's own error, which it meets after these members. */
    method UnmarshalJSON(codec: Codec, members: seq<Member>, malformed: bool) returns (failed: bool)
      modifies this
      ensures Current() == Fold(codec, old(Current()), members).claims
      ensures failed <==> Fold(codec, old(Current()), members).failed || malformed
    {
      for k := 0 to |members|
        invariant Fold(codec, old(Current()), members[..k]) == Decoded(Current(), false)
      {
        assert members[..k + 1][..k] == members[..k];
        var err := Callback(codec, members[k]);
        if err {
          FailureSticks(codec, old(Current()), members, k + 1);
          return true;
        }
      }
      assert members[..|members|] == members;
      return malformed;
    }

    /** The loop copies `Extra` over the two fixed entries, in any order. */
    method ToMap() returns (res: map<string, Any>)
      ensures res == Presented(Current())
    {
      res := FixedEntries(Current());
      var rest := Extra.Keys;
      while rest != {}
        invariant rest <= Extra.Keys
        invariant res == FixedEntries(Current()) + map k | k in Extra && k !in rest :: Extra[k]
        decreases |rest|
      {
        var k :| k in rest;
        res := res[k := Extra[k]];
        rest := rest - {k};
      }
      assert (map k | k in Extra && k !in rest :: Extra[k]) == Extra;
    }
  }

  function FixedEntries(c: View): map<string, Any> {
    map["_id" := c.userID,
        "jwtInfo" := Fields(map["userId" := c.userID, "sessionId" := Text(c.sessionID), "issuedAt" := Int(c.issuedAt),
                                "ussiedBy" := Text(c.issuer), "expiredAt" := Int(c.expiresAt)])]
  }

  /** The claims as the map handed to the scripts. */
  function Presented(c: View): map<string, Any> {
    FixedEntries(c) + c.extra
  }
}

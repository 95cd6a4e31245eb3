/** The mock session token shared by the auth, cart and order services
    (src/services/mock/MockAuthService.js, generateMockToken and isValidToken):
    an unsigned record of the user's id, email and expiry time. The token text
    is a concrete, self-delimiting encoding of that record; only its round trip
    matters to the services, never its bytes. */
module Session {
  import opened Common
  import opened Text
  import opened Numerals

  /** A token lives for 24 hours, in milliseconds. */
  const TOKEN_LIFETIME: int := 24 * 60 * 60 * 1000

  datatype Payload = Payload(userId: string, email: string, exp: int)

  // ---- length-prefixed fields ----

  /** A string field: its length in decimal, a ':' and the string itself. */
  function Field(s: string): (t: string)
    ensures |t| > |s|
  {
    NatText(|s|) + ":" + s
  }

  /** Reads one field off the front of `t`, giving its contents and what follows. */
  function ReadField(t: string): (r: Option<(string, string)>)
    ensures r.Some? ==> |r.value.1| < |t|
  {
    match IndexOf(t, ":")
      case None => None
      case Some(k) =>
        match ParseNat(t[..k])
          case None => None
          case Some(n) =>
            if k + 1 + n <= |t| then Some((t[k + 1..k + 1 + n], t[k + 1 + n..])) else None
  }

  /** The first ':' of a numeral followed by ':' is the one right after the numeral. */
  lemma FirstColon(digits: string, rest: string)
    requires forall i :: 0 <= i < |digits| ==> IsDigit(digits[i])
    ensures IndexOf(digits + ":" + rest, ":") == Some(|digits|)
  {
    var t := digits + ":" + rest;
    assert t[|digits|..|digits| + 1] == ":";
    assert OccursAt(t, ":", |digits|);
    forall j | 0 <= j < |digits|
      ensures !OccursAt(t, ":", j)
    {
      assert t[j..j + 1] == [digits[j]];
    }
  }

  lemma ReadFieldOfField(s: string, rest: string)
    ensures ReadField(Field(s) + rest) == Some((s, rest))
  {
    var digits := NatText(|s|);
    var t := Field(s) + rest;
    assert t == digits + ":" + (s + rest);
    FirstColon(digits, s + rest);
    var k := |digits|;
    assert t[..k] == digits;
    ParseNatText(|s|);
    assert t[k + 1..k + 1 + |s|] == s;
    assert t[k + 1 + |s|..] == rest;
  }

  // ---- the token ----

  /** `btoa(JSON.stringify({user_id, email, exp}))`, as a self-delimiting text. */
  function Encode(p: Payload): (token: string)
    ensures |token| > |p.userId| + |p.email|
  {
    Field(p.userId) + Field(p.email) + IntText(p.exp)
  }

  /** `JSON.parse(atob(token))`: the payload, or None where the source would throw. */
  function Decode(token: string): (r: Option<Payload>)
    ensures r.Some? ==> token != ""
  {
    match ReadField(token)
      case None => None
      case Some((id, afterId)) =>
        match ReadField(afterId)
          case None => None
          case Some((email, afterEmail)) =>
            match ParseInt(afterEmail)
              case None => None
              case Some(exp) => Some(Payload(id, email, exp))
  }

  /** Every token decodes to the payload it was made from. */
  lemma DecodeEncode(p: Payload)
    ensures Decode(Encode(p)) == Some(p)
  {
    var tail := Field(p.email) + IntText(p.exp);
    assert Encode(p) == Field(p.userId) + tail;
    ReadFieldOfField(p.userId, tail);
    ReadFieldOfField(p.email, IntText(p.exp));
    ParseIntText(p.exp);
  }

  /** Two payloads with the same token are the same payload. */
  lemma EncodeInjective(p: Payload, q: Payload)
    requires Encode(p) == Encode(q)
    ensures p == q
  {
    DecodeEncode(p);
    DecodeEncode(q);
  }

  /** Text `btoa` accepts: every character is at most U+00FF. */
  predicate Latin1(s: string)
    decreases |s|
  {
    s == [] || (s[0] as int <= 0xFF && Latin1(s[1..]))
  }

  /** Latin1 character by character. */
  lemma {:induction false} Latin1Iff(s: string)
    ensures Latin1(s) <==> forall i :: 0 <= i < |s| ==> s[i] as int <= 0xFF
    decreases |s|
  {
    if s != [] {
      Latin1Iff(s[1..]);
      assert forall i :: 1 <= i < |s| ==> s[i] == s[1..][i - 1];
    }
  }

  /** `generateMockToken(user)` at time `now`. `JSON.stringify` keeps every
      character above U+007F as it is, so `btoa` throws (None) exactly when the
      id or the email holds a character above U+00FF. */
  function GenerateMockToken(userId: string, email: string, now: int): (token: Option<string>)
    ensures token.Some? <==> Latin1(userId) && Latin1(email)
    ensures token.Some? ==> Decode(token.value) == Some(Payload(userId, email, now + TOKEN_LIFETIME))
  {
    if Latin1(userId) && Latin1(email) then
      var p := Payload(userId, email, now + TOKEN_LIFETIME);
      DecodeEncode(p);
      Some(Encode(p))
    else None
  }

  /** An email with one character above U+00FF gets no token. */
  lemma WideEmailHasNoToken(userId: string, email: string, now: int, i: int)
    requires 0 <= i < |email| && email[i] as int > 0xFF
    ensures GenerateMockToken(userId, email, now).None?
  {
    Latin1Iff(email);
  }

  /** `isValidToken(token)` at time `now`: a falsy token, or one that fails to decode,
      is invalid; otherwise the token is valid while its expiry lies in the future. */
  predicate IsValidToken(token: Option<string>, now: int) {
    token.Some? && token.value != ""
    && match Decode(token.value)
         case None => false
         case Some(p) => p.exp > now
  }

  /** A freshly generated token is valid for exactly 24 hours; when none could
      be generated there is nothing valid. */
  lemma FreshTokenLifetime(userId: string, email: string, issued: int, now: int)
    ensures IsValidToken(GenerateMockToken(userId, email, issued), now)
        <==> Latin1(userId) && Latin1(email) && now < issued + TOKEN_LIFETIME
  {
  }

  /** Validity only ever runs out: a token valid now was valid at every earlier
      time, stops being valid at the expiry it carries, and a token that does not
      decode is never valid. */
  lemma TokenValidityOnlyRunsOut(token: Option<string>, now: int, earlier: int)
    ensures IsValidToken(token, now) && earlier <= now ==> IsValidToken(token, earlier)
    ensures IsValidToken(token, now) ==> !IsValidToken(token, Decode(token.value).value.exp)
    ensures token.Some? && Decode(token.value).None? ==> !IsValidToken(token, now)
  {
  }
}

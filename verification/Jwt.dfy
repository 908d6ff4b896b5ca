/** Signed tokens in the compact form (section 7.1 of RFC 7515): header, payload and signature,
    each in base64url, with dots between. HMAC is a parameter of which only the 32-byte
    length of its values is used. */
module Jwt {
  import opened Common
  import opened Base64Url

  const HEADER := "eyJhbGciOiJIUzI1NiIsInR5cCI6IkpXVCJ9"

  /** The room that the buffers leave: pay64, token and payload_raw in the source. */
  const PAY64_SIZE: nat := 512
  const TOKEN_SIZE: nat := 1024
  const MSG_SIZE: nat := 1024
  const PAYLOAD_SIZE: nat := 512

  function Signature(hmac: string -> seq<Byte>, msg: string): string {
    UrlText(hmac(msg))
  }

  function Sign(payload: seq<Byte>, hmac: string -> seq<Byte>): string {
    var msg := HEADER + "." + UrlText(payload);
    msg + "." + Signature(hmac, msg)
  }

  /** The text before the first dot and the text after it. */
  function CutAtDot(s: string): Option<(string, string)> {
    if s == "" then None
    else if s[0] == '.' then Some(("", s[1..]))
    else
      var rest := CutAtDot(s[1..]);
      if rest.None? then None else Some(([s[0]] + rest.value.0, rest.value.1))
  }

  /** What a token of the right form and signature carries; the checks of the payload's own
      fields come after this. */
  function Verify(token: string, hmac: string -> seq<Byte>): Option<seq<Byte>> {
    var buf := Buffered(token);
    var first := CutAtDot(buf);
    if first.None? then None
    else
      var second := CutAtDot(first.value.1);
      if second.None? then None
      else
        var header, payload, signature := first.value.0, second.value.0, second.value.1;
        if |header| + 1 + |payload| >= MSG_SIZE then None
        else if Signature(hmac, header + "." + payload) != signature then None
        else Decode(payload, PAYLOAD_SIZE)
  }

  lemma {:induction false} CutAt(a: string, b: string)
    requires '.' !in a
    ensures CutAtDot(a + "." + b) == Some((a, b))
  {
    var s := a + "." + b;
    if a == "" {
      assert s[1..] == b;
    } else {
      assert a[0] in a;
      assert s[1..] == a[1..] + "." + b;
      CutAt(a[1..], b);
      assert [a[0]] + a[1..] == a;
    }
  }

  lemma {:induction false} CutGives(s: string)
    requires CutAtDot(s).Some?
    ensures var (a, b) := CutAtDot(s).value; s == a + "." + b && '.' !in a
  {
    if s[0] != '.' {
      CutGives(s[1..]);
      var (a, b) := CutAtDot(s[1..]).value;
      assert s == [s[0]] + s[1..];
      assert [s[0]] + (a + "." + b) == ([s[0]] + a) + "." + b;
    }
  }

  lemma HeaderHasNoDot()
    ensures '.' !in HEADER && |HEADER| == 36
  {
  }

  /** What verifying three dot-separated fields amounts to. */
  lemma VerifyFields(header: string, text: string, signature: string, hmac: string -> seq<Byte>)
    requires '.' !in header && '.' !in text
    requires |header| + |text| + |signature| + 2 < TOKEN_SIZE
    ensures Verify(header + "." + text + "." + signature, hmac)
         == if Signature(hmac, header + "." + text) == signature then Decode(text, PAYLOAD_SIZE) else None
  {
    hide Decode, CutAtDot, Signature;
    var token := header + "." + text + "." + signature;
    assert token == header + "." + (text + "." + signature);
    CutAt(header, text + "." + signature);
    CutAt(text, signature);
  }

  lemma SizeFits(n: nat)
    requires Padded(n) < PAY64_SIZE
    ensures n <= 381 && UrlLength(n) <= 508
  {
  }

  /** The dots of a signed token are the two that signing wrote, and nothing is cut off. */
  lemma SignedFields(payload: seq<Byte>, header: string, mac: seq<Byte>)
    requires Padded(|payload|) < PAY64_SIZE && |mac| == 32
    requires |header| == 36
    ensures |payload| <= 381
    ensures '.' !in UrlText(payload)
    ensures |header| + |UrlText(payload)| + |UrlText(mac)| + 2 < TOKEN_SIZE
  {
    NoDots(payload);
    TextLengths(payload);
    TextLengths(mac);
    SizeFits(|payload|);
    hide UrlText;
    assert UrlLength(32) == 43;
    hide UrlLength, Padded;
  }

  /** A token of a payload that fits the signing buffer verifies and gives the payload back. */
  lemma SignedTokenVerifies(payload: seq<Byte>, hmac: string -> seq<Byte>)
    requires Padded(|payload|) < PAY64_SIZE
    requires |hmac(HEADER + "." + UrlText(payload))| == 32
    ensures |payload| <= 381
    ensures Verify(Sign(payload, hmac), hmac) == Some(payload)
  {
    HeaderHasNoDot();
    hide UrlText, Decode, Verify, HEADER;
    SignedFields(payload, HEADER, hmac(HEADER + "." + UrlText(payload)));
    var text := UrlText(payload);
    VerifyFields(HEADER, text, Signature(hmac, HEADER + "." + text), hmac);
    RoundTrip(payload, PAYLOAD_SIZE);
  }

  /** Decoding the payload of a signed token stays inside the verifier's buffer. */
  lemma SignedPayloadFits(payload: seq<Byte>)
    requires Padded(|payload|) < PAY64_SIZE
    ensures WrittenBytes(UrlText(payload)) <= PAYLOAD_SIZE
  {
    hide UrlText, WrittenBytes, Padded, UrlLength;
    SizeFits(|payload|);
    TextLengths(payload);
    DecoderWritesFit(UrlText(payload), PAYLOAD_SIZE);
  }

  lemma NoDots(bytes: seq<Byte>)
    ensures '.' !in UrlText(bytes)
  {
    hide UrlText, Btoa, IsStd, ToUrl;
    TextUnpads(bytes);
    var u := UrlText(bytes);
    forall k | 0 <= k < |u| ensures u[k] != '.' {
      UrlOfStd(Btoa(bytes)[k]);
    }
  }

  /** And only such tokens verify: what is accepted has exactly the form that signing gives, a
      header and a payload text without dots under their own signature, followed by nothing
      unless the form fills the verifier's buffer, behind which the token is not read. */
  lemma OnlySignedTokensVerify(token: string, hmac: string -> seq<Byte>)
    requires Verify(token, hmac).Some?
    ensures exists header: string, text: string, junk: string ::
      && '.' !in header && '.' !in text
      && var signed := header + "." + text + "." + Signature(hmac, header + "." + text);
        && token == signed + junk && (junk == "" || |signed| == TOKEN_SIZE - 1)
        && Decode(text, PAYLOAD_SIZE) == Verify(token, hmac)
  {
    hide Decode, Signature;
    var buf := Buffered(token);
    var header, text := FieldsOf(buf, hmac);
    assert token == buf + token[|buf|..];
  }

  /** What the verifier reads of a token. */
  function Buffered(token: string): string {
    if |token| < TOKEN_SIZE then token else token[..TOKEN_SIZE - 1]
  }

  lemma FieldsOf(buf: string, hmac: string -> seq<Byte>) returns (header: string, text: string)
    requires |buf| < TOKEN_SIZE && Verify(buf, hmac).Some?
    ensures '.' !in header && '.' !in text
    ensures buf == header + "." + text + "." + Signature(hmac, header + "." + text)
    ensures Decode(text, PAYLOAD_SIZE) == Verify(buf, hmac)
  {
    hide Decode, Signature;
    var rest: string, signature: string;
    header, rest := CutAtDot(buf).value.0, CutAtDot(buf).value.1;
    text, signature := CutAtDot(rest).value.0, CutAtDot(rest).value.1;
    CutGives(buf);
    CutGives(rest);
    hide CutAtDot;
    assert buf == header + "." + text + "." + signature;
  }

  /** What the third field of an accepted token is: a text that decodes to the 32 bytes of the HMAC
      over the first two fields. An empty or any other field is refused. */
  lemma AcceptedIsAuthentic(token: string, hmac: string -> seq<Byte>)
    requires Verify(token, hmac).Some? && forall msg :: |hmac(msg)| == 32
    ensures exists header: string, text: string, third: string ::
      && '.' !in header && '.' !in text && Buffered(token) == header + "." + text + "." + third
      && Decode(third, 64) == Some(hmac(header + "." + text))
  {
    hide Decode, UrlLength;
    var header, text := FieldsOf(Buffered(token), hmac);
    MacDecodes(hmac(header + "." + text));
  }

  lemma MacDecodes(mac: seq<Byte>)
    requires |mac| == 32
    ensures Decode(UrlText(mac), 64) == Some(mac)
  {
    hide Decode, UrlText;
    assert UrlLength(32) == 43;
    RoundTrip(mac, 64);
  }

  /** Nothing but the right third field is accepted. */
  lemma ForgedIsRefused(header: string, text: string, third: string, hmac: string -> seq<Byte>)
    requires '.' !in header && '.' !in text && |header| + |text| + |third| + 2 < TOKEN_SIZE
    requires |hmac(header + "." + text)| == 32
    requires Decode(third, 64) != Some(hmac(header + "." + text))
    ensures Verify(header + "." + text + "." + third, hmac).None?
  {
    hide Decode;
    VerifyFields(header, text, third, hmac);
    MacDecodes(hmac(header + "." + text));
  }

  /** `jwt_sign` with its buffers. */
  method JwtSign(payload: seq<Byte>, hmac: string -> seq<Byte>) returns (token: string)
    requires Padded(|payload|) < PAY64_SIZE
    requires |hmac(HEADER + "." + UrlText(payload))| == 32
    ensures token == Sign(payload, hmac) && |token| < TOKEN_SIZE
    ensures exists third ::
      && token == HEADER + "." + UrlText(payload) + "." + third
      && Decode(third, 64) == Some(hmac(HEADER + "." + UrlText(payload)))
  {
    hide UrlText;
    HeaderHasNoDot();
    var pay64 := new char[PAY64_SIZE];
    var pay64len := B64UrlEncode(payload, pay64);
    var msg := HEADER + "." + pay64[..pay64len];
    var sig64 := new char[64];
    var sig64len := B64UrlEncode(hmac(msg), sig64);
    TextUnpads(payload);
    TextUnpads(hmac(msg));
    token := msg + "." + sig64[..sig64len];
    MacDecodes(hmac(msg));
    hide Decode;
  }
}
